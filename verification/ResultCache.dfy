/** The result cache key of convert-to-pdf/internal/worker/cache.go, and when payloads with equal keys
    have equal results. */
module ResultCache {
  import opened Wrappers
  import opened Encoding

  type JobId = nat

  /** What encoding/json decodes into an interface value. */
  datatype Value = Null | Bool(b: bool) | Number(text: string) | Text(s: string)
                 | Array(items: seq<Value>) | Object(fields: map<string, Value>)

  /** An input object: the base name of its key, and its content. */
  datatype Input = Input(name: string, content: string)

  /** The foreign code: the JSON library, path.Base, the store's ETags, and a deterministic converter of named files. */
  datatype Platform = Platform(
    parse: string -> Option<Value>,
    marshal: Value -> string,
    base: string -> string,
    etag: string -> string,
    convert: (string, map<string, Value>, seq<Input>) -> Option<string>)

  /** json.Marshal escapes NUL and is read back; ETags have no NUL and identify content. */
  ghost predicate Faithful(p: Platform) {
    && p.parse("{}") == Some(Object(map[])) && p.marshal(Object(map[])) == "{}" && p.parse("").None?
    && (forall v :: p.parse(p.marshal(v)) == Some(v))
    && (forall v :: Without(NUL, p.marshal(v)))
    && (forall c :: Without(NUL, p.etag(c)))
    && (forall c, d :: p.etag(c) == p.etag(d) ==> c == d)
  }

  /** A dispatch payload: tool, raw options, and its input objects. */
  datatype Payload = Payload(tool: string, options: string, inputs: seq<Input>)

  predicate Sound(x: Payload) {
    Without(NUL, x.tool) && Without(NUL, x.options)
  }

  function CanonicalOptions(p: Platform, raw: string): string {
    if raw == "" then "{}"
    else match p.parse(raw)
         case Some(v) => p.marshal(v)
         case None => raw
  }

  /** The options map that processMessage hands to the converter. */
  function UsedOptions(p: Platform, raw: string): map<string, Value> {
    if raw == "" then map[]
    else match p.parse(raw)
         case Some(Object(fields)) => fields
         case _ => map[]
  }

  function Etags(p: Platform, contents: seq<string>): (r: seq<string>)
    ensures |r| == |contents| && forall i :: 0 <= i < |r| ==> r[i] == p.etag(contents[i])
  {
    seq(|contents|, i requires 0 <= i < |contents| => p.etag(contents[i]))
  }

  function Contents(inputs: seq<Input>): (r: seq<string>)
    ensures |r| == |inputs| && forall i :: 0 <= i < |r| ==> r[i] == inputs[i].content
  {
    seq(|inputs|, i requires 0 <= i < |inputs| => inputs[i].content)
  }

  function KeyOf(p: Platform, x: Payload): string {
    CachePreimage(x.tool, CanonicalOptions(p, x.options), Etags(p, Contents(x.inputs)))
  }

  // ------------------------------------------------------------ What the converter sees

  /** The content of the last input with this name. */
  function LastNamed(inputs: seq<Input>, name: string): string {
    if inputs == [] then ""
    else if inputs[|inputs| - 1].name == name then inputs[|inputs| - 1].content
    else LastNamed(inputs[..|inputs| - 1], name)
  }

  /** Inputs are staged in one directory under their base names, so of two with one name the later one is seen twice. */
  function Staged(inputs: seq<Input>): (r: seq<Input>)
    ensures |r| == |inputs|
  {
    seq(|inputs|, i requires 0 <= i < |inputs| => Input(inputs[i].name, LastNamed(inputs, inputs[i].name)))
  }

  /** Inputs with one name have one content. */
  ghost predicate Apart(inputs: seq<Input>) {
    forall i, j :: 0 <= i < j < |inputs| && inputs[i].name == inputs[j].name ==> inputs[i].content == inputs[j].content
  }

  lemma {:induction false} LastNamedIsLast(inputs: seq<Input>, name: string) returns (k: nat)
    requires exists i :: 0 <= i < |inputs| && inputs[i].name == name
    ensures k < |inputs| && inputs[k] == Input(name, LastNamed(inputs, name))
    ensures forall i :: k < i < |inputs| ==> inputs[i].name != name
  {
    var n := |inputs| - 1;
    if inputs[n].name == name {
      k := n;
    } else {
      var i :| 0 <= i < |inputs| && inputs[i].name == name;
      assert inputs[..n][i].name == name;
      k := LastNamedIsLast(inputs[..n], name);
    }
  }

  /** The converter sees the inputs as they are exactly if no two different ones have one base name. */
  lemma StagedIffApart(inputs: seq<Input>)
    ensures Staged(inputs) == inputs <==> Apart(inputs)
  {
    if Staged(inputs) == inputs {
      forall i, j | 0 <= i < j < |inputs| && inputs[i].name == inputs[j].name
        ensures inputs[i].content == inputs[j].content
      {
        assert Staged(inputs)[i] == inputs[i] && Staged(inputs)[j] == inputs[j];
      }
    } else if Apart(inputs) {
      forall i | 0 <= i < |inputs|
        ensures Staged(inputs)[i] == inputs[i]
      {
        var k := LastNamedIsLast(inputs, inputs[i].name);
        assert inputs[k].content == inputs[i].content;
      }
    }
  }

  lemma LastNamedSnoc(inputs: seq<Input>, x: Input, name: string)
    ensures LastNamed(inputs + [x], name) == if x.name == name then x.content else LastNamed(inputs, name)
  {
    assert (inputs + [x])[..|inputs|] == inputs;
  }

  /** The input objects of these keys. */
  function InputsOf(p: Platform, store: map<string, string>, keys: seq<string>): (r: seq<Input>)
    requires forall k :: k in keys ==> k in store
    ensures |r| == |keys| && forall i :: 0 <= i < |r| ==> r[i] == Input(p.base(keys[i]), store[keys[i]])
  {
    seq(|keys|, i requires 0 <= i < |keys| => Input(p.base(keys[i]), store[keys[i]]))
  }

  predicate HasName(p: Platform, keys: seq<string>, name: string, k: int) {
    0 <= k < |keys| && p.base(keys[k]) == name
  }

  lemma LastKey(p: Platform, store: map<string, string>, keys: seq<string>, i: nat) returns (k: nat)
    requires i < |keys| && forall k :: k in keys ==> k in store
    ensures HasName(p, keys, p.base(keys[i]), k)
    ensures LastNamed(InputsOf(p, store, keys), p.base(keys[i])) == store[keys[k]]
    ensures forall later :: k < later < |keys| ==> !HasName(p, keys, p.base(keys[i]), later)
  {
    var inputs := InputsOf(p, store, keys);
    assert inputs[i].name == p.base(keys[i]);
    k := LastNamedIsLast(inputs, p.base(keys[i]));
    forall later | k < later < |keys|
      ensures !HasName(p, keys, p.base(keys[i]), later)
    {
      assert inputs[later].name == p.base(keys[later]);
    }
  }

  /** fetchInputs: download every key to the scratch directory, so that of two with one name the later one stays. */
  method FetchInputs(p: Platform, store: map<string, string>, keys: seq<string>)
    returns (ok: bool, localPaths: seq<string>, scratch: map<string, string>)
    ensures ok <==> forall k :: k in keys ==> k in store
    ensures ok ==> |localPaths| == |keys| && forall k :: k in keys ==> k in store
    ensures ok ==>
              forall i :: 0 <= i < |keys| ==>
                && localPaths[i] == p.base(keys[i]) && localPaths[i] in scratch
                && Input(localPaths[i], scratch[localPaths[i]]) == Staged(InputsOf(p, store, keys))[i]
                && exists k :: HasName(p, keys, localPaths[i], k) && scratch[localPaths[i]] == store[keys[k]]
                     && forall later :: k < later < |keys| ==> !HasName(p, keys, localPaths[i], later)
  {
    localPaths, scratch := [], map[];
    for i := 0 to |keys|
      invariant forall k :: k in keys[..i] ==> k in store
      invariant |localPaths| == i && forall k :: 0 <= k < i ==> localPaths[k] == p.base(keys[k])
      invariant forall k :: 0 <= k < i ==> localPaths[k] in scratch
      invariant forall name :: name in scratch ==> scratch[name] == LastNamed(InputsOf(p, store, keys[..i]), name)
    {
      if keys[i] !in store {
        return false, [], map[];
      }
      var localPath := p.base(keys[i]);
      assert keys[..i + 1] == keys[..i] + [keys[i]];
      assert InputsOf(p, store, keys[..i + 1])
          == InputsOf(p, store, keys[..i]) + [Input(localPath, store[keys[i]])];
      forall name
        ensures LastNamed(InputsOf(p, store, keys[..i + 1]), name)
                == if localPath == name then store[keys[i]] else LastNamed(InputsOf(p, store, keys[..i]), name)
      {
        LastNamedSnoc(InputsOf(p, store, keys[..i]), Input(localPath, store[keys[i]]), name);
      }
      scratch := scratch[localPath := store[keys[i]]];
      localPaths := localPaths + [localPath];
    }
    assert keys[..|keys|] == keys;
    forall i | 0 <= i < |keys|
      ensures exists k :: HasName(p, keys, localPaths[i], k) && scratch[localPaths[i]] == store[keys[k]]
                && forall later :: k < later < |keys| ==> !HasName(p, keys, localPaths[i], later)
    {
      var k := LastKey(p, store, keys, i);
    }
    return true, localPaths, scratch;
  }

  /** What a plain conversion produces. */
  function Result(p: Platform, x: Payload): Option<string> {
    p.convert(x.tool, UsedOptions(p, x.options), Staged(x.inputs))
  }

  /** Options that say the same: they parse to one value, or neither parses and they are one text; no options at all
      are the empty object. */
  predicate SameOptions(p: Platform, a: string, b: string) {
    var x, y := if a == "" then "{}" else a, if b == "" then "{}" else b;
    p.parse(x) == p.parse(y) && (p.parse(x).None? ==> x == y)
  }

  /** Options have one canonical form exactly if they say the same, and then the converter is given one map. */
  lemma CanonicalIffSame(p: Platform, a: string, b: string)
    requires Faithful(p)
    ensures CanonicalOptions(p, a) == CanonicalOptions(p, b) <==> SameOptions(p, a, b)
    ensures SameOptions(p, a, b) ==> UsedOptions(p, a) == UsedOptions(p, b)
  {
    CanonicalParses(p, a);
    CanonicalParses(p, b);
  }

  lemma CanonicalParses(p: Platform, raw: string)
    requires Faithful(p)
    ensures p.parse(CanonicalOptions(p, raw)) == p.parse(if raw == "" then "{}" else raw)
  {
    if raw != "" && p.parse(raw).Some? {
      var v := p.parse(raw).value;
      assert p.parse(p.marshal(v)) == Some(v);
    }
  }

  /** The converter is given the fields of an object as they were written, and no options for anything else. */
  lemma OptionsAreRead(p: Platform, raw: string, fields: map<string, Value>)
    requires Faithful(p)
    ensures UsedOptions(p, p.marshal(Object(fields))) == fields
    ensures p.parse(raw).None? || !p.parse(raw).value.Object? ==> UsedOptions(p, raw) == map[]
    ensures UsedOptions(p, CanonicalOptions(p, raw)) == UsedOptions(p, raw)
  {
    assert p.parse(p.marshal(Object(fields))) == Some(Object(fields));
    CanonicalParses(p, raw);
  }

  // ------------------------------------------------------------ When equal keys mean equal results

  lemma {:induction false} SameContents(p: Platform, xs: seq<string>, ys: seq<string>)
    requires Faithful(p)
    ensures multiset(Etags(p, xs)) == multiset(Etags(p, ys)) <==> multiset(xs) == multiset(ys)
  {
    if xs == [] {
      assert |multiset(ys)| == |ys| && |multiset(Etags(p, ys))| == |ys|;
    } else if multiset(Etags(p, xs)) == multiset(Etags(p, ys)) {
      var e := p.etag(xs[0]);
      assert Etags(p, xs)[0] in multiset(Etags(p, ys));
      var k :| 0 <= k < |ys| && Etags(p, ys)[k] == e;
      DropOne(p, xs, ys, k);
      SameContents(p, xs[1..], ys[..k] + ys[k + 1..]);
    } else if multiset(xs) == multiset(ys) {
      assert xs[0] in multiset(ys);
      var k :| 0 <= k < |ys| && ys[k] == xs[0];
      DropOne(p, xs, ys, k);
      SameContents(p, xs[1..], ys[..k] + ys[k + 1..]);
    }
  }

  lemma DropOne(p: Platform, xs: seq<string>, ys: seq<string>, k: nat)
    requires xs != [] && k < |ys| && ys[k] == xs[0]
    ensures multiset(xs) == multiset(ys) <==> multiset(xs[1..]) == multiset(ys[..k] + ys[k + 1..])
    ensures multiset(Etags(p, xs)) == multiset(Etags(p, ys))
            <==> multiset(Etags(p, xs[1..])) == multiset(Etags(p, ys[..k] + ys[k + 1..]))
  {
    var rest := ys[..k] + ys[k + 1..];
    var es, fs := Etags(p, xs), Etags(p, ys);
    assert xs == [xs[0]] + xs[1..] && ys == ys[..k] + [ys[k]] + ys[k + 1..];
    assert es == [es[0]] + Etags(p, xs[1..]);
    assert fs == fs[..k] + [fs[k]] + fs[k + 1..];
    assert Etags(p, rest) == fs[..k] + fs[k + 1..];
    assert multiset(xs) == multiset{xs[0]} + multiset(xs[1..]);
    assert multiset(ys) == multiset{xs[0]} + multiset(rest);
    assert multiset(es) == multiset{es[0]} + multiset(Etags(p, xs[1..]));
    assert multiset(fs) == multiset{es[0]} + multiset(Etags(p, rest));
    CancelOne(multiset(xs[1..]), multiset(rest), xs[0]);
    CancelOne(multiset(Etags(p, xs[1..])), multiset(Etags(p, rest)), es[0]);
  }

  lemma CancelOne(a: multiset<string>, b: multiset<string>, x: string)
    ensures multiset{x} + a == multiset{x} + b <==> a == b
  {
    if multiset{x} + a == multiset{x} + b {
      assert a == (multiset{x} + a) - multiset{x};
      assert b == (multiset{x} + b) - multiset{x};
    }
  }

  lemma CanonicalNulFree(p: Platform, raw: string)
    requires Faithful(p) && Without(NUL, raw)
    ensures Without(NUL, CanonicalOptions(p, raw))
  {
  }

  /** Two payloads share a cache key exactly if the tools are equal, the options say the same, and the inputs have the
      same contents, in any order and under any names. */
  lemma KeysAgree(p: Platform, x: Payload, y: Payload)
    requires Faithful(p) && Sound(x) && Sound(y)
    ensures KeyOf(p, x) == KeyOf(p, y) <==>
            x.tool == y.tool && SameOptions(p, x.options, y.options)
            && multiset(Contents(x.inputs)) == multiset(Contents(y.inputs))
  {
    CanonicalNulFree(p, x.options);
    CanonicalNulFree(p, y.options);
    CanonicalIffSame(p, x.options, y.options);
    SameContents(p, Contents(x.inputs), Contents(y.inputs));
    CacheKeysAgree(x.tool, CanonicalOptions(p, x.options), Etags(p, Contents(x.inputs)),
                   y.tool, CanonicalOptions(p, y.options), Etags(p, Contents(y.inputs)));
  }

  /** Given n inputs, the tool minds neither their order nor their names. */
  ghost predicate Blind(p: Platform, tool: string, n: nat) {
    forall options, xs, ys ::
      Without(NUL, options) && |xs| == n && Apart(xs) && Apart(ys)
      && multiset(Contents(xs)) == multiset(Contents(ys)) ==>
        p.convert(tool, UsedOptions(p, options), xs) == p.convert(tool, UsedOptions(p, options), ys)
  }

  /** Payloads of n inputs for this tool whose inputs can be told apart. */
  ghost predicate Regular(p: Platform, x: Payload, tool: string, n: nat) {
    Sound(x) && x.tool == tool && |x.inputs| == n && Apart(x.inputs)
  }

  lemma BlindIsEnough(p: Platform, tool: string, n: nat, x: Payload, y: Payload)
    requires Faithful(p) && Blind(p, tool, n) && Regular(p, x, tool, n) && Regular(p, y, tool, n)
    requires KeyOf(p, x) == KeyOf(p, y)
    ensures Result(p, x) == Result(p, y)
  {
    KeysAgree(p, x, y);
    CanonicalIffSame(p, x.options, y.options);
    StagedIffApart(x.inputs);
    StagedIffApart(y.inputs);
  }

  lemma BlindIsNeeded(p: Platform, tool: string, n: nat, options: string, xs: seq<Input>, ys: seq<Input>)
    requires Faithful(p) && Without(NUL, tool) && Without(NUL, options)
    requires forall x, y :: Regular(p, x, tool, n) && Regular(p, y, tool, n) && KeyOf(p, x) == KeyOf(p, y) ==>
               Result(p, x) == Result(p, y)
    requires |xs| == n && Apart(xs) && Apart(ys) && multiset(Contents(xs)) == multiset(Contents(ys))
    ensures p.convert(tool, UsedOptions(p, options), xs) == p.convert(tool, UsedOptions(p, options), ys)
  {
    var x, y := Payload(tool, options, xs), Payload(tool, options, ys);
    assert |ys| == |multiset(Contents(ys))| == |multiset(Contents(xs))| == n;
    KeysAgree(p, x, y);
    StagedIffApart(xs);
    StagedIffApart(ys);
    assert Regular(p, x, tool, n) && Regular(p, y, tool, n);
    assert Result(p, x) == Result(p, y);
  }

  /** Equal keys mean equal results, for a tool and a number of inputs, exactly if the tool minds neither their order
      nor their names. */
  lemma CacheableIffBlind(p: Platform, tool: string, n: nat)
    requires Faithful(p) && Without(NUL, tool)
    ensures (forall x, y :: Regular(p, x, tool, n) && Regular(p, y, tool, n) && KeyOf(p, x) == KeyOf(p, y) ==>
               Result(p, x) == Result(p, y))
            <==> Blind(p, tool, n)
  {
    if Blind(p, tool, n) {
      forall x, y | Regular(p, x, tool, n) && Regular(p, y, tool, n) && KeyOf(p, x) == KeyOf(p, y)
        ensures Result(p, x) == Result(p, y)
      {
        BlindIsEnough(p, tool, n, x, y);
      }
    }
    if forall x, y :: Regular(p, x, tool, n) && Regular(p, y, tool, n) && KeyOf(p, x) == KeyOf(p, y) ==>
         Result(p, x) == Result(p, y) {
      forall options, xs, ys | Without(NUL, options) && |xs| == n && Apart(xs) && Apart(ys)
                               && multiset(Contents(xs)) == multiset(Contents(ys))
        ensures p.convert(tool, UsedOptions(p, options), xs) == p.convert(tool, UsedOptions(p, options), ys)
      {
        BlindIsNeeded(p, tool, n, options, xs, ys);
      }
    }
  }

  ghost predicate NameBlind(p: Platform, tool: string) {
    forall options, m, n, c :: Without(NUL, options) ==>
      p.convert(tool, UsedOptions(p, options), [Input(m, c)]) == p.convert(tool, UsedOptions(p, options), [Input(n, c)])
  }

  /** For a single input that is: the tool does not mind the file's name. */
  lemma SingleInputBlind(p: Platform, tool: string)
    ensures Blind(p, tool, 1) <==> NameBlind(p, tool)
  {
    if Blind(p, tool, 1) {
      forall options, m, n, c | Without(NUL, options)
        ensures p.convert(tool, UsedOptions(p, options), [Input(m, c)])
             == p.convert(tool, UsedOptions(p, options), [Input(n, c)])
      {
        assert Contents([Input(m, c)]) == [c] == Contents([Input(n, c)]);
        assert Apart([Input(m, c)]) && Apart([Input(n, c)]);
      }
    } else if NameBlind(p, tool) {
      var options, xs, ys :| Without(NUL, options) && |xs| == 1 && Apart(xs) && Apart(ys)
                             && multiset(Contents(xs)) == multiset(Contents(ys))
                             && p.convert(tool, UsedOptions(p, options), xs)
                                != p.convert(tool, UsedOptions(p, options), ys);
      OneContent(xs, ys);
    }
  }

  lemma OneContent(xs: seq<Input>, ys: seq<Input>)
    requires |xs| == 1 && multiset(Contents(xs)) == multiset(Contents(ys))
    ensures |ys| == 1 && xs == [Input(xs[0].name, xs[0].content)] && ys == [Input(ys[0].name, xs[0].content)]
  {
    assert |ys| == |multiset(Contents(ys))| == |multiset(Contents(xs))| == 1;
    assert Contents(xs) == [xs[0].content] && Contents(ys) == [ys[0].content];
    assert ys[0].content in multiset(Contents(xs));
  }
}

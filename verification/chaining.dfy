/** Fluent chaining of builder calls, modelled as folding a list of mutator
    calls over a builder value. */
module Chaining {
  import opened Strings
  import opened Afe

  /** One mutator call on a builder. */
  datatype Mutation =
    | SetPerms(p: string)
    | AddFunction(name: string, args: seq<string>, body: string)
    | AddCode(code: string)

  function Apply(b: AfeBuilder, m: Mutation): AfeBuilder
  {
    match m
    case SetPerms(p) => SetPermissions(b, p)
    case AddFunction(name, args, body) => AddLuaFunction(b, name, args, body)
    case AddCode(code) => AddLuaCode(b, code)
  }

  /** The builder after the calls `ms`, left to right. */
  function ApplyAll(b: AfeBuilder, ms: seq<Mutation>): AfeBuilder
    decreases |ms|
  {
    if |ms| == 0 then b else ApplyAll(Apply(b, ms[0]), ms[1..])
  }

  /** The script text a single call contributes. */
  function Fragment(m: Mutation): string
  {
    match m
    case SetPerms(_) => ""
    case AddFunction(name, args, body) => FunctionSource(name, args, body)
    case AddCode(code) => code + "\n"
  }

  /** All script text the calls contribute, in call order. */
  function Fragments(ms: seq<Mutation>): string
    decreases |ms|
  {
    if |ms| == 0 then "" else Fragment(ms[0]) + Fragments(ms[1..])
  }

  /** The permission string after the calls: the last one set, else `p`. */
  function LastPermissions(p: string, ms: seq<Mutation>): string
    decreases |ms|
  {
    if |ms| == 0 then p
    else LastPermissions(if ms[0].SetPerms? then ms[0].p else p, ms[1..])
  }

  /** One call keeps the identity, appends its fragment and sets the
      permission string only when it is a `SetPerms` call. */
  lemma ApplyEffect(b: AfeBuilder, m: Mutation)
    ensures Apply(b, m).appName == b.appName && Apply(b, m).appVersion == b.appVersion
    ensures Apply(b, m).luaScript == b.luaScript + Fragment(m)
    ensures Apply(b, m).permissions == if m.SetPerms? then m.p else b.permissions
  {
    match m
    case SetPerms(p) =>
      assert b.luaScript + "" == b.luaScript;
    case AddFunction(name, args, body) =>
    case AddCode(code) =>
  }

  /** Regrouping a concatenation, stated apart so that the step is proved in
      a small context rather than inside the induction below. */
  lemma AppendAssoc(a: string, b: string, c: string)
    ensures (a + b) + c == a + (b + c)
  {
  }

  /** A chain of calls extends the script by exactly the fragments the calls
      contribute, in call order. */
  lemma {:induction false} ApplyAllScript(b: AfeBuilder, ms: seq<Mutation>)
    ensures ApplyAll(b, ms).luaScript == b.luaScript + Fragments(ms)
    decreases |ms|
  {
    if |ms| > 0 {
      var b' := Apply(b, ms[0]);
      ApplyEffect(b, ms[0]);
      ApplyAllScript(b', ms[1..]);
      assert ApplyAll(b, ms) == ApplyAll(b', ms[1..]);
      assert Fragments(ms) == Fragment(ms[0]) + Fragments(ms[1..]);
      AppendAssoc(b.luaScript, Fragment(ms[0]), Fragments(ms[1..]));
    }
  }

  /** A chain of calls keeps the application identity and leaves the last
      permission string set, or the original one when none is set. */
  lemma {:induction false} ApplyAllMetadata(b: AfeBuilder, ms: seq<Mutation>)
    ensures ApplyAll(b, ms).appName == b.appName
    ensures ApplyAll(b, ms).appVersion == b.appVersion
    ensures ApplyAll(b, ms).permissions == LastPermissions(b.permissions, ms)
    decreases |ms|
  {
    if |ms| > 0 {
      ApplyEffect(b, ms[0]);
      ApplyAllMetadata(Apply(b, ms[0]), ms[1..]);
    }
  }

  /** The script is append-only: what was there before any chain of calls is a
      prefix of what is there after. */
  lemma ScriptAppendOnly(b: AfeBuilder, ms: seq<Mutation>)
    ensures b.luaScript <= ApplyAll(b, ms).luaScript
    ensures |ApplyAll(b, ms).luaScript| == |b.luaScript| + |Fragments(ms)|
  {
    ApplyAllScript(b, ms);
  }

  /** Chaining is composition: running two chains one after the other is
      running their concatenation. */
  lemma {:induction false} ApplyAllConcat(b: AfeBuilder, ms1: seq<Mutation>, ms2: seq<Mutation>)
    ensures ApplyAll(b, ms1 + ms2) == ApplyAll(ApplyAll(b, ms1), ms2)
    decreases |ms1|
  {
    if |ms1| > 0 {
      assert (ms1 + ms2)[1..] == ms1[1..] + ms2;
      ApplyAllConcat(Apply(b, ms1[0]), ms1[1..], ms2);
    } else {
      assert ms1 + ms2 == ms2;
    }
  }

  /** A container built after any chain of calls keeps the name and version of
      one built before it, and the earlier script is a prefix of the later one. */
  lemma SnapshotIndependence(b: AfeBuilder, ms: seq<Mutation>, u: string, u': string)
    ensures Build(b, u).luaScript <= Build(ApplyAll(b, ms), u').luaScript
    ensures Build(ApplyAll(b, ms), u').appName == Build(b, u).appName
    ensures Build(ApplyAll(b, ms), u').appVersion == Build(b, u).appVersion
  {
    ApplyAllScript(b, ms);
    ApplyAllMetadata(b, ms);
  }

  /** The end-to-end example: create, set permissions, add one line, build. */
  lemma EndToEndExample()
    ensures var f := Build(ApplyAll(New("App", "1.0"), [SetPerms("rwxr-xr-x"), AddCode("x = 1")]), "demo");
            && f.version == 1 && f.using == "demo"
            && f.appName == "App" && f.appVersion == "1.0"
            && f.permissions == "rwxr-xr-x"
            && f.luaScript == "x = 1\n"
  {
    var ms := [SetPerms("rwxr-xr-x"), AddCode("x = 1")];
    ApplyAllScript(New("App", "1.0"), ms);
    ApplyAllMetadata(New("App", "1.0"), ms);
    assert ms[1..][1..] == [];
  }
}

/** The AFE container record and the builder that assembles it: identity
    metadata, an accumulated Lua script and a permission string, frozen into a
    versioned record by `Build`. */
module Afe {
  import opened Strings
  import opened Permissions

  newtype u32 = x: int | 0 <= x < 0x1_0000_0000

  /** The format revision every container is stamped with. */
  const FormatVersion: u32 := 1

  /** The separator placed between parameter names in a function header. */
  const ArgSeparator: string := ", "

  /** An immutable container. */
  datatype AfeFile = AfeFile(
    version: u32,
    appName: string,
    appVersion: string,
    luaScript: string,
    permissions: string,  // symbolic mode string; see Permissions.WellFormed
    using: string)

  /** The accumulator: the container's fields without `version` and `using`. */
  datatype AfeBuilder = AfeBuilder(
    appName: string,
    appVersion: string,
    luaScript: string,
    permissions: string)

  /** A fresh builder for the given application: empty script, default permissions. */
  function New(appName: string, appVersion: string): (b: AfeBuilder)
    ensures b.appName == appName && b.appVersion == appVersion
    ensures |b.luaScript| == 0
    ensures b.permissions == "rwxr-xr-x"
    ensures WellFormed(b.permissions)
  {
    DefaultPermissionsWellFormed();
    AfeBuilder(appName, appVersion, "", DefaultPermissions)
  }

  /** Replaces the permission string with `p`, whatever it is: nothing is validated. */
  function SetPermissions(b: AfeBuilder, p: string): (r: AfeBuilder)
    ensures r.permissions == p
    ensures r.appName == b.appName && r.appVersion == b.appVersion && r.luaScript == b.luaScript
  {
    b.(permissions := p)
  }

  /** The Lua text of one function definition: header naming the function and
      its parameters, the body verbatim, and the closing `end`. */
  function FunctionSource(name: string, args: seq<string>, body: string): string
  {
    Header(name) + (Join(args, ArgSeparator) + Trailer(body))
  }

  /** `function NAME(`: the text before the parameter list. */
  function Header(name: string): string
  {
    "function " + name + "("
  }

  /** `)`, a newline, the body, a newline and `end` with its newline. */
  function Trailer(body: string): string
  {
    ")\n" + body + "\nend\n"
  }

  /** Appends a synthesised Lua function definition to the script. */
  function AddLuaFunction(b: AfeBuilder, name: string, args: seq<string>, body: string): (r: AfeBuilder)
    ensures b.luaScript <= r.luaScript
    ensures r.luaScript[|b.luaScript|..] == FunctionSource(name, args, body)
    ensures |r.luaScript| == |b.luaScript| + |name| + |Join(args, ArgSeparator)| + |body| + 17
    ensures r.appName == b.appName && r.appVersion == b.appVersion && r.permissions == b.permissions
  {
    b.(luaScript := b.luaScript + FunctionSource(name, args, body))
  }

  /** Appends raw Lua code followed by one newline to the script. */
  function AddLuaCode(b: AfeBuilder, code: string): (r: AfeBuilder)
    ensures b.luaScript <= r.luaScript
    ensures |r.luaScript| == |b.luaScript| + |code| + 1
    ensures r.luaScript[|b.luaScript|..|b.luaScript| + |code|] == code
    ensures r.luaScript[|r.luaScript| - 1] == '\n'
    ensures r.appName == b.appName && r.appVersion == b.appVersion && r.permissions == b.permissions
  {
    b.(luaScript := b.luaScript + code + "\n")
  }

  /** Snapshots the builder into a container with the current format version
      and the caller's usage tag. The builder itself is a value and is unchanged. */
  function Build(b: AfeBuilder, using: string): (f: AfeFile)
    ensures f.version == 1
    ensures f.using == using
    ensures f.appName == b.appName && f.appVersion == b.appVersion
    ensures f.luaScript == b.luaScript && f.permissions == b.permissions
  {
    AfeFile(FormatVersion, b.appName, b.appVersion, b.luaScript, b.permissions, using)
  }

  /** The builder a container was snapshot from. */
  function Source(f: AfeFile): AfeBuilder
  {
    AfeBuilder(f.appName, f.appVersion, f.luaScript, f.permissions)
  }

  /** `Build` copies every field: two snapshots are equal exactly when they come
      from equal builders with equal tags, and the builder is recoverable. */
  lemma BuildInjective(b1: AfeBuilder, u1: string, b2: AfeBuilder, u2: string)
    ensures Build(b1, u1) == Build(b2, u2) <==> b1 == b2 && u1 == u2
    ensures Source(Build(b1, u1)) == b1
  {
  }

  /** A function definition is raw code whose final newline is the one
      `AddLuaCode` supplies. */
  lemma AddLuaFunctionIsCode(b: AfeBuilder, name: string, args: seq<string>, body: string)
    ensures AddLuaFunction(b, name, args, body)
         == AddLuaCode(b, "function " + name + "(" + Join(args, ArgSeparator) + ")\n" + body + "\nend")
  {
    var j := Join(args, ArgSeparator);
    var code := "function " + name + "(" + j + ")\n" + body + "\nend";
    assert "\nend\n" == "\nend" + "\n";
    assert Trailer(body) == ")\n" + body + "\nend" + "\n";
    assert FunctionSource(name, args, body) == code + "\n";
    assert b.luaScript + FunctionSource(name, args, body) == b.luaScript + code + "\n";
  }

  /** Every parameter name appears unchanged in a synthesised definition, at
      its join offset after `function NAME(` (the name plus ten characters);
      since offsets grow with the index, the names keep their original order. */
  lemma FunctionHeaderListsArgs(name: string, args: seq<string>, body: string, i: nat)
    requires i < |args|
    ensures |name| + 10 + Offset(args, ArgSeparator, i) + |args[i]| <= |FunctionSource(name, args, body)|
    ensures FunctionSource(name, args, body)[|name| + 10 + Offset(args, ArgSeparator, i)..
                                             |name| + 10 + Offset(args, ArgSeparator, i) + |args[i]|]
         == args[i]
  {
    assert |Header(name)| == |name| + 10;
    EmbeddedJoinPlacesPart(Header(name), args, ArgSeparator, Trailer(body), i);
  }

  /** In a synthesised definition, `, ` sits between each parameter name and
      the next. */
  lemma FunctionHeaderSeparatesArgs(name: string, args: seq<string>, body: string, i: nat)
    requires i + 1 < |args|
    ensures |name| + 10 + Offset(args, ArgSeparator, i) + |args[i]| + 2 <= |FunctionSource(name, args, body)|
    ensures FunctionSource(name, args, body)[|name| + 10 + Offset(args, ArgSeparator, i) + |args[i]|..
                                             |name| + 10 + Offset(args, ArgSeparator, i) + |args[i]| + 2]
         == ", "
  {
    var h := Header(name);
    var o := Offset(args, ArgSeparator, i) + |args[i]|;
    assert |h| == |name| + 10;
    EmbeddedJoinSeparates(h, args, ArgSeparator, Trailer(body), i);
    assert FunctionSource(name, args, body)[|h| + o..|h| + o + |ArgSeparator|] == ArgSeparator;
  }

  /** The example function `f(a, b)` with body `return a+b` on a fresh builder. */
  lemma AddLuaFunctionExample(n: string, v: string)
    ensures AddLuaFunction(New(n, v), "f", ["a", "b"], "return a+b").luaScript
         == "function f(a, b)\nreturn a+b\nend\n"
  {
    JoinTwoNames();
  }

  /** Setting permissions does not interfere with script appends. */
  lemma SetPermissionsCommutes(b: AfeBuilder, p: string, code: string, name: string, args: seq<string>, body: string)
    ensures SetPermissions(AddLuaCode(b, code), p) == AddLuaCode(SetPermissions(b, p), code)
    ensures SetPermissions(AddLuaFunction(b, name, args, body), p)
         == AddLuaFunction(SetPermissions(b, p), name, args, body)
  {
  }

  /** Only the last permission string set survives. */
  lemma SetPermissionsLastWins(b: AfeBuilder, p: string, q: string)
    ensures SetPermissions(SetPermissions(b, p), q) == SetPermissions(b, q)
  {
  }

  /** Nothing guards the grammar: any builder accepts an ill-formed string,
      and a container built from it carries it. */
  lemma SetPermissionsDoesNotValidate(b: AfeBuilder, u: string)
    ensures !WellFormed(SetPermissions(b, "RWXR-XR-X").permissions)
    ensures Build(SetPermissions(b, "RWXR-XR-X"), u).permissions == "RWXR-XR-X"
  {
    GrammarExamples();
  }
}

/**
 Path resolution of src/sftp/mod.rs: `resolve_path` joins a request to the root, normalises
 it lexically when the system cannot canonicalise it, and accepts it only under the root.
 Paths are Unix paths as `std::path` reads them: by components.
 */
module SftpPaths {
  import opened Bytes
  import opened Wire

  const SLASH: byte := 47
  const DOT: byte := 46

  datatype Component = RootDir | CurDir | ParentDir | Normal(name: bytes)

  predicate IsAbsolute(p: bytes) { p != [] && p[0] == SLASH }

  /** A piece between slashes: empty pieces and single dots inside a path are no components. */
  function PieceComponents(piece: bytes): seq<Component> {
    if piece == [] || piece == [DOT] then []
    else if piece == [DOT, DOT] then [ParentDir]
    else [Normal(piece)]
  }

  function Body(pieces: seq<bytes>): seq<Component> {
    if pieces == [] then [] else PieceComponents(pieces[0]) + Body(pieces[1..])
  }

  /** What a path starts with: the root, or a leading dot of a relative path. */
  function Head(p: bytes): seq<Component> {
    if IsAbsolute(p) then [RootDir] else if Split(p, SLASH)[0] == [DOT] then [CurDir] else []
  }

  /** `Path::components`. */
  function Components(p: bytes): seq<Component> { Head(p) + Body(Split(p, SLASH)) }

  /** `Path::join`: an absolute right side replaces the left one. */
  function JoinPath(p: bytes, x: bytes): bytes {
    if IsAbsolute(x) then x
    else if p == [] || p[|p| - 1] == SLASH then p + x
    else p + [SLASH] + x
  }

  function Text(c: Component): bytes {
    match c
    case RootDir => [SLASH]
    case CurDir => [DOT]
    case ParentDir => [DOT, DOT]
    case Normal(name) => name
  }

  /** Collecting components into a path pushes them one by one. */
  function Render(cs: seq<Component>): bytes {
    if cs == [] then [] else JoinPath(Render(cs[..|cs| - 1]), Text(cs[|cs| - 1]))
  }

  /** `Path::starts_with` compares components. */
  predicate StartsWith(p: bytes, base: bytes) { Components(base) <= Components(p) }

  // ---------------------------------------------------------------- normalisation

  /** One component in `normalize_path`: dots are dropped, a double dot pops whatever is on top. */
  function Push(stack: seq<Component>, c: Component): seq<Component> {
    match c
    case ParentDir => if stack == [] then [] else stack[..|stack| - 1]
    case CurDir => stack
    case _ => stack + [c]
  }

  function PushAll(stack: seq<Component>, cs: seq<Component>): seq<Component>
    decreases |cs|
  {
    if cs == [] then stack else PushAll(Push(stack, cs[0]), cs[1..])
  }

  function Normalize(p: bytes): bytes { Render(PushAll([], Components(p))) }

  lemma {:induction false} PushAllAppend(stack: seq<Component>, cs: seq<Component>, c: Component)
    ensures PushAll(stack, cs + [c]) == Push(PushAll(stack, cs), c)
    decreases |cs|
  {
    if cs == [] {
      assert cs + [c] == [c] && [c][1..] == [];
    } else {
      PushAllAppend(Push(stack, cs[0]), cs[1..], c);
      assert (cs + [c])[1..] == cs[1..] + [c];
    }
  }

  method NormalizePath(p: bytes) returns (r: bytes)
    ensures r == Normalize(p)
  {
    var cs := Components(p);
    var stack: seq<Component> := [];
    for i := 0 to |cs|
      invariant stack == PushAll([], cs[..i])
    {
      PushAllAppend([], cs[..i], cs[i]);
      assert cs[..i] + [cs[i]] == cs[..i + 1];
      match cs[i] {
        case ParentDir =>
          if stack != [] {
            stack := stack[..|stack| - 1];
          }
        case CurDir =>
        case c => stack := stack + [c];
      }
    }
    assert cs[..|cs|] == cs;
    r := Render(stack);
  }

  // ---------------------------------------------------------------- resolution

  /** What the system's `canonicalize` answers for the joined path and for the root. */
  datatype Canon = Canon(path: Option<bytes>, root: Option<bytes>)

  function Joined(root: bytes, requested: bytes): bytes {
    if IsAbsolute(requested) then JoinPath(root, requested[1..]) else JoinPath(root, requested)
  }

  function Resolve(root: bytes, requested: bytes, canon: Canon): Result<bytes> {
    var path := Joined(root, requested);
    var canonical := if canon.path.Some? then canon.path.value else Normalize(path);
    var rootCanonical := if canon.root.Some? then canon.root.value else Normalize(root);
    if StartsWith(canonical, rootCanonical) then Ok(canonical)
    else Err(Sftp("Access denied: path outside root"))
  }

  method ResolvePath(root: bytes, requested: bytes, canon: Canon) returns (r: Result<bytes>)
    ensures r == Resolve(root, requested, canon)
  {
    var path := if IsAbsolute(requested) then JoinPath(root, requested[1..]) else JoinPath(root, requested);
    var canonical, rootCanonical;
    if canon.path.Some? {
      canonical := canon.path.value;
    } else {
      canonical := NormalizePath(path);
    }
    if canon.root.Some? {
      rootCanonical := canon.root.value;
    } else {
      rootCanonical := NormalizePath(root);
    }
    if !StartsWith(canonical, rootCanonical) {
      return Err(Sftp("Access denied: path outside root"));
    }
    r := Ok(canonical);
  }

  // ---------------------------------------------------------------- components of joined paths

  lemma {:induction false} BodyConcat(a: seq<bytes>, b: seq<bytes>)
    ensures Body(a + b) == Body(a) + Body(b)
    decreases |a|
  {
    hide PieceComponents;
    if a == [] {
      assert a + b == b;
    } else {
      BodyConcat(a[1..], b);
      assert (a + b)[1..] == a[1..] + b;
      var x, y, z := PieceComponents(a[0]), Body(a[1..]), Body(b);
      assert x + (y + z) == x + y + z;
    }
  }

  lemma SplitBody(p: bytes, x: bytes)
    ensures Body(Split(p + [SLASH] + x, SLASH)) == Body(Split(p, SLASH)) + Body(Split(x, SLASH))
    ensures Split(p + [SLASH] + x, SLASH)[0] == Split(p, SLASH)[0]
  {
    hide Split, Body;
    SplitConcat(p, x, SLASH);
    BodyConcat(Split(p, SLASH), Split(x, SLASH));
  }

  lemma EmptyBody()
    ensures Body(Split([], SLASH)) == []
  {
    hide Split;
    SplitFree([], SLASH);
    assert Split([], SLASH)[1..] == [];
  }

  /** The left side without its trailing slash. */
  function Trimmed(p: bytes): bytes
    requires p != []
  {
    if p[|p| - 1] == SLASH then p[..|p| - 1] else p
  }

  lemma JoinForm(p: bytes, x: bytes)
    requires p != [] && !IsAbsolute(x)
    ensures JoinPath(p, x) == Trimmed(p) + [SLASH] + x
    ensures Trimmed(p) == p || p == Trimmed(p) + [SLASH] + []
    ensures IsAbsolute(JoinPath(p, x)) <==> IsAbsolute(p)
  {
    if p[|p| - 1] == SLASH {
      assert p == p[..|p| - 1] + [SLASH];
    }
  }

  /** Joining a relative path appends its components. */
  lemma JoinAppends(p: bytes, x: bytes)
    requires p != [] && !IsAbsolute(x)
    ensures Body(Split(JoinPath(p, x), SLASH)) == Body(Split(p, SLASH)) + Body(Split(x, SLASH))
    ensures IsAbsolute(JoinPath(p, x)) <==> IsAbsolute(p)
    ensures Split(JoinPath(p, x), SLASH)[0] == Split(p, SLASH)[0]
  {
    hide Split, Body, JoinPath, Trimmed, IsAbsolute;
    JoinForm(p, x);
    SplitBody(Trimmed(p), x);
    SplitBody(Trimmed(p), []);
    EmptyBody();
  }

  predicate NoRoot(cs: seq<Component>) { forall i :: 0 <= i < |cs| ==> !cs[i].RootDir? && !cs[i].CurDir? }

  lemma {:induction false} BodyHasNoRoot(pieces: seq<bytes>)
    ensures NoRoot(Body(pieces))
    decreases |pieces|
  {
    if pieces != [] {
      BodyHasNoRoot(pieces[1..]);
    }
  }

  /** Names that read back as one component: not empty, no slash, no dots. */
  predicate Plain(c: Component) {
    c.Normal? && c.name != [] && SLASH !in c.name && c.name != [DOT] && c.name != [DOT, DOT]
  }

  predicate PlainFrom(cs: seq<Component>, n: nat) { forall i :: n <= i < |cs| ==> Plain(cs[i]) }

  lemma {:induction false} BodyNamesArePlain(pieces: seq<bytes>)
    requires forall i :: 0 <= i < |pieces| ==> SLASH !in pieces[i]
    ensures forall i :: 0 <= i < |Body(pieces)| && Body(pieces)[i].Normal? ==> Plain(Body(pieces)[i])
    decreases |pieces|
  {
    if pieces != [] {
      BodyNamesArePlain(pieces[1..]);
    }
  }

  lemma NameBody(name: bytes)
    requires Plain(Normal(name))
    ensures Body(Split(name, SLASH)) == [Normal(name)]
  {
    hide Split;
    SplitFree(name, SLASH);
    assert [name][1..] == [];
  }

  lemma RenderRoot(cs: seq<Component>)
    requires cs == [RootDir]
    ensures Render(cs) == [SLASH]
  {
    assert cs[..0] == [];
  }

  /** A dot-free absolute path, collected from its components, has exactly those components. */
  lemma {:induction false} RenderReadsBack(cs: seq<Component>)
    requires cs != [] && cs[0] == RootDir && PlainFrom(cs, 1)
    ensures Components(Render(cs)) == cs && IsAbsolute(Render(cs))
    decreases |cs|
  {
    hide Split, Body, JoinPath;
    var n := |cs| - 1;
    if n == 0 {
      assert cs[..0] == [] && Render(cs) == [SLASH] by { RenderRoot(cs); }
      assert [] + [SLASH] + [] == [SLASH];
      SplitBody([], []);
      EmptyBody();
    } else {
      var p, name := Render(cs[..n]), cs[n].name;
      RenderReadsBack(cs[..n]);
      assert name[0] in name && !IsAbsolute(name);
      JoinAppends(p, name);
      NameBody(name);
      assert cs == cs[..n] + [cs[n]];
    }
  }
}

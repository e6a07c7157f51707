/**
 When `resolve_path` accepts a request by the lexical fallback, and what it then returns.
 */
module SftpConfinement {
  import opened Bytes
  import opened Wire
  import opened SftpPaths

  // ---------------------------------------------------------------- reference definitions

  function Parents(cs: seq<Component>): nat {
    if cs == [] then 0 else (if cs[0].ParentDir? then 1 else 0) + Parents(cs[1..])
  }

  function Names(cs: seq<Component>): nat {
    if cs == [] then 0 else (if cs[0].Normal? then 1 else 0) + Names(cs[1..])
  }

  /** Read from "/", some prefix has more double dots than names. */
  ghost predicate ClimbsAboveRoot(cs: seq<Component>) {
    exists k :: 0 <= k <= |cs| && Parents(cs[..k]) > Names(cs[..k])
  }

  /** The usual meaning of an absolute path: a double dot at "/" stays at "/". */
  function Meaning(stack: seq<Component>, cs: seq<Component>): seq<Component>
    decreases |cs|
  {
    if cs == [] then stack
    else if cs[0].ParentDir? then Meaning(if |stack| > 1 then stack[..|stack| - 1] else stack, cs[1..])
    else if cs[0].CurDir? then Meaning(stack, cs[1..])
    else Meaning(stack + [cs[0]], cs[1..])
  }

  // ---------------------------------------------------------------- climbing

  predicate StaysBelow(depth: nat, cs: seq<Component>)
    decreases |cs|
  {
    cs == [] ||
    if cs[0].ParentDir? then depth > 0 && StaysBelow(depth - 1, cs[1..])
    else StaysBelow(if cs[0].Normal? then depth + 1 else depth, cs[1..])
  }

  lemma {:induction false} StaysBelowCounts(depth: nat, cs: seq<Component>, k: nat)
    requires StaysBelow(depth, cs) && k <= |cs|
    ensures Parents(cs[..k]) <= depth + Names(cs[..k])
    decreases k
  {
    if k > 0 {
      var d := if cs[0].ParentDir? then depth - 1 else if cs[0].Normal? then depth + 1 else depth;
      StaysBelowCounts(d, cs[1..], k - 1);
      assert cs[..k][1..] == cs[1..][..k - 1];
    }
  }

  lemma {:induction false} ClimbCounts(depth: nat, cs: seq<Component>) returns (k: nat)
    requires !StaysBelow(depth, cs)
    ensures k <= |cs| && Parents(cs[..k]) > depth + Names(cs[..k])
    decreases |cs|
  {
    if cs[0].ParentDir? && depth == 0 {
      k := 1;
      assert cs[..1][1..] == [];
    } else {
      var d := if cs[0].ParentDir? then depth - 1 else if cs[0].Normal? then depth + 1 else depth;
      var j := ClimbCounts(d, cs[1..]);
      k := j + 1;
      assert cs[..k][1..] == cs[1..][..j];
    }
  }

  lemma ClimbsIff(cs: seq<Component>)
    ensures ClimbsAboveRoot(cs) <==> !StaysBelow(0, cs)
  {
    if StaysBelow(0, cs) {
      forall k | 0 <= k <= |cs|
        ensures Parents(cs[..k]) <= Names(cs[..k])
      {
        StaysBelowCounts(0, cs, k);
      }
    } else {
      var k := ClimbCounts(0, cs);
    }
  }

  // ---------------------------------------------------------------- the stack

  predicate Rooted(stack: seq<Component>) { stack != [] && stack[0] == RootDir && PlainFrom(stack, 1) }

  predicate PlainNames(cs: seq<Component>) { forall i :: 0 <= i < |cs| && cs[i].Normal? ==> Plain(cs[i]) }

  /** As long as nothing climbs, the code's stack is the meaning of the path. */
  lemma {:induction false} StackIsMeaning(stack: seq<Component>, cs: seq<Component>)
    requires Rooted(stack) && NoRoot(cs) && PlainNames(cs) && StaysBelow(|stack| - 1, cs)
    ensures PushAll(stack, cs) == Meaning(stack, cs) && Rooted(PushAll(stack, cs))
    decreases |cs|
  {
    if cs != [] {
      assert cs[0].Normal? || cs[0].ParentDir?;
      StackIsMeaning(Push(stack, cs[0]), cs[1..]);
    }
  }

  lemma {:induction false} RootNeverReturns(stack: seq<Component>, cs: seq<Component>)
    requires PlainFrom(stack, 0) && NoRoot(cs) && PlainNames(cs)
    ensures PlainFrom(PushAll(stack, cs), 0)
    decreases |cs|
  {
    if cs != [] {
      assert cs[0].Normal? || cs[0].ParentDir?;
      RootNeverReturns(Push(stack, cs[0]), cs[1..]);
    }
  }

  /** A path that climbs pops the root component, and nothing brings it back. */
  lemma {:induction false} ClimbLosesRoot(stack: seq<Component>, cs: seq<Component>)
    requires Rooted(stack) && NoRoot(cs) && PlainNames(cs) && !StaysBelow(|stack| - 1, cs)
    ensures PlainFrom(PushAll(stack, cs), 0)
    decreases |cs|
  {
    assert cs[0].Normal? || cs[0].ParentDir?;
    if cs[0].ParentDir? && |stack| == 1 {
      RootNeverReturns([], cs[1..]);
    } else {
      ClimbLosesRoot(Push(stack, cs[0]), cs[1..]);
    }
  }

  // ---------------------------------------------------------------- paths

  /** An absolute root without double dots. */
  predicate GoodRoot(root: bytes) { IsAbsolute(root) && Rooted(Components(root)) }

  lemma AbsoluteComponents(p: bytes)
    requires IsAbsolute(p)
    ensures var cs := Components(p);
            cs != [] && cs[0] == RootDir && NoRoot(cs[1..]) && PlainNames(cs[1..])
  {
    var pieces := Split(p, SLASH);
    PiecesAreFree(p, SLASH);
    BodyHasNoRoot(pieces);
    BodyNamesArePlain(pieces);
    assert Components(p)[1..] == Body(pieces);
  }

  lemma JoinedIsAbsolute(root: bytes, requested: bytes)
    requires IsAbsolute(root)
    ensures IsAbsolute(Joined(root, requested))
  {
    hide Split, Body;
    var x := if IsAbsolute(requested) then requested[1..] else requested;
    if !IsAbsolute(x) {
      JoinAppends(root, x);
    }
  }

  lemma {:induction false} PlainPathIsItsStack(stack: seq<Component>, cs: seq<Component>)
    requires PlainFrom(cs, 0)
    ensures PushAll(stack, cs) == stack + cs
    decreases |cs|
  {
    if cs != [] {
      assert Plain(cs[0]);
      PlainPathIsItsStack(stack + [cs[0]], cs[1..]);
      assert stack + [cs[0]] + cs[1..] == stack + cs;
    } else {
      assert stack + cs == stack;
    }
  }

  lemma RootNormalizes(root: bytes)
    requires GoodRoot(root)
    ensures Components(Normalize(root)) == Components(root)
  {
    hide Components, Render;
    var cs := Components(root);
    assert Push([], cs[0]) == [RootDir] == cs[..1];
    PlainPathIsItsStack([RootDir], cs[1..]);
    assert [RootDir] + cs[1..] == cs;
    RenderReadsBack(cs);
  }

  /** What the joined path means, read from "/". */
  function MeaningOf(root: bytes, requested: bytes): seq<Component>
    requires IsAbsolute(root)
  {
    var cs := Components(Joined(root, requested));
    if cs == [] then [] else Meaning([RootDir], cs[1..])
  }

  lemma PushFromRoot(cs: seq<Component>)
    requires cs != [] && cs[0] == RootDir
    ensures PushAll([], cs) == PushAll([RootDir], cs[1..])
  {
    assert Push([], cs[0]) == [RootDir];
  }

  /**
   By the lexical fallback a request is accepted iff its joined path never climbs above "/" and
   means something under the root; and what is returned is then that meaning, free of dots.
   */
  lemma ResolvesIff(root: bytes, requested: bytes, canon: Canon)
    requires GoodRoot(root) && canon.path == None
    requires canon.root.Some? ==> Components(canon.root.value) == Components(root)
    ensures var cs := Components(Joined(root, requested));
            var r := Resolve(root, requested, canon);
            && cs != []
            && (r.Ok? <==> !ClimbsAboveRoot(cs[1..]) && Components(root) <= MeaningOf(root, requested))
            && (r.Ok? ==> Components(r.value) == MeaningOf(root, requested) && Rooted(Components(r.value)))
  {
    hide Components, Render, Split;
    var path := Joined(root, requested);
    var cs := Components(path);
    JoinedIsAbsolute(root, requested);
    AbsoluteComponents(path);
    ClimbsIff(cs[1..]);
    RootNormalizes(root);
    PushFromRoot(cs);
    var stack := PushAll([], cs);
    if StaysBelow(0, cs[1..]) {
      StackIsMeaning([RootDir], cs[1..]);
      RenderReadsBack(stack);
    } else {
      ClimbLosesRoot([RootDir], cs[1..]);
      RenderedWithoutRoot(stack);
    }
  }

  /** A path collected without a root component is not absolute, so it is under no absolute root. */
  lemma RenderedWithoutRoot(stack: seq<Component>)
    requires PlainFrom(stack, 0)
    ensures Components(Render(stack)) == [] || Components(Render(stack))[0] != RootDir
  {
    RelativeRender(stack);
    BodyHasNoRoot(Split(Render(stack), SLASH));
  }

  lemma {:induction false} RelativeRender(stack: seq<Component>)
    requires PlainFrom(stack, 0)
    ensures !IsAbsolute(Render(stack))
    decreases |stack|
  {
    if stack != [] {
      var n := |stack| - 1;
      RelativeRender(stack[..n]);
      var name := stack[n].name;
      assert Plain(stack[n]) && name[0] in name;
    }
  }
}

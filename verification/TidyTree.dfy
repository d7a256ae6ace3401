/**
 The invariant of the hierarchy between operations: the registry, the parents' lists, the parent
 references and the handed-out references all describe one tree of live actors.
 */
module TidyTree {
  import opened ActorTree

  /** The instance the registry knows under its own name, or the system actor. */
  ghost predicate Live(s: Store, a: Actor) {
    a in s.children && (a == s.root || (a.name in s.registry && s.registry[a.name] == a))
  }

  /** A live actor's parent reference is its live parent's own, and that parent lists it exactly once. */
  ghost predicate Placed(s: Store, a: Actor) {
    && a.parent != null && a.parent in s.target
    && var p := s.target[a.parent];
    && Live(s, p) && p !in s.dead && p in s.self && s.self[p] == a.parent
    && Count(s.target, s.children[p], a) == 1
  }

  /** Each entry of a live actor's list is a dead leftover or leads to a live child of that actor. */
  ghost predicate EntryOk(s: Store, a: Actor, c: ActorRefImpl)
    requires c in s.target
  {
    var d := s.target[c];
    d in s.dead || (Live(s, d) && d != s.root && d.parent in s.target && s.target[d.parent] == a)
  }

  ghost predicate AllPlaced(s: Store) {
    forall a {:trigger Placed(s, a)} :: a in s.children && Live(s, a) && a != s.root ==> Placed(s, a)
  }

  ghost predicate EntriesOk(s: Store) {
    forall a, c {:trigger c in s.children[a]} :: a in s.children && Live(s, a) && c in s.children[a] ==>
      c in s.target && EntryOk(s, a, c)
  }

  ghost predicate SelfOk(s: Store) {
    forall a {:trigger s.self[a]} :: a in s.children && Live(s, a) ==>
      a in s.self && s.self[a] in s.target && s.target[s.self[a]] == a
  }

  ghost predicate RegisteredAlive(s: Store) {
    forall n {:trigger s.registry[n]} :: n in s.registry ==> s.registry[n] !in s.dead
  }

  ghost predicate Tidy(s: Store) {
    && Closed(s) && AllPlaced(s) && EntriesOk(s) && SelfOk(s) && RegisteredAlive(s)
  }

  /** Two live actors with the same name are the same actor. */
  lemma LiveUnique(s: Store, a: Actor, b: Actor)
    requires Closed(s) && Live(s, a) && Live(s, b) && a.name == b.name
    ensures a == b
  {
    if a != s.root {
      LongerThanRoot(s, a);
    }
    if b != s.root {
      LongerThanRoot(s, b);
    }
  }

  // ---- Descendants --------------------------------------------------------------------------------

  /** `b` is `a` or one of its descendants, following parent references upwards. */
  ghost predicate Under(s: Store, b: Actor, a: Actor)
    requires Closed(s) && b in s.children
    decreases |b.name|
  {
    b == a || (b != s.root && Under(s, s.target[b.parent], a))
  }

  lemma {:induction false} EveryoneUnderRoot(s: Store, b: Actor)
    requires Closed(s) && b in s.children
    ensures Under(s, b, s.root)
    decreases |b.name|
  {
    if b != s.root {
      EveryoneUnderRoot(s, s.target[b.parent]);
    }
  }

  lemma {:induction false} UnderShorter(s: Store, b: Actor, a: Actor)
    requires Closed(s) && b in s.children && Under(s, b, a)
    ensures a in s.children && |a.name| <= |b.name| && (|a.name| == |b.name| ==> a == b)
    decreases |b.name|
  {
    if b != a {
      UnderShorter(s, s.target[b.parent], a);
    }
  }

  lemma {:induction false} UnderTransitive(s: Store, c: Actor, b: Actor, a: Actor)
    requires Closed(s) && c in s.children && Under(s, c, b) && b in s.children && Under(s, b, a)
    ensures Under(s, c, a)
    decreases |c.name|
  {
    if c != b {
      UnderTransitive(s, s.target[c.parent], b, a);
    }
  }

  /** A live entry of `x` leads to `y`. */
  ghost predicate LiveEdge(s: Store, x: Actor, y: Actor)
    requires x in s.children
  {
    y !in s.dead && exists c :: c in s.children[x] && c in s.target && s.target[c] == y
  }

  /** The path leads from the system actor to `b` along live entries. */
  ghost predicate Reached(s: Store, path: seq<Actor>, b: Actor) {
    && path != [] && path[0] == s.root && path[|path| - 1] == b
    && (forall i :: 0 <= i < |path| ==> path[i] in s.children)
    && (forall i {:trigger path[i]} :: 0 <= i < |path| - 1 ==> LiveEdge(s, path[i], path[i + 1]))
  }

  /** Every registered actor is reached from the system actor. */
  lemma {:induction false} RegisteredIsReached(s: Store, b: Actor) returns (path: seq<Actor>)
    requires Tidy(s) && b in s.children && Live(s, b)
    ensures Reached(s, path, b)
    decreases |b.name|
  {
    if b == s.root {
      path := [b];
    } else {
      assert Placed(s, b);
      var p := s.target[b.parent];
      var up := RegisteredIsReached(s, p);
      var c := CountWitness(s.target, s.children[p], b);
      assert s.registry[b.name] == b;
      assert LiveEdge(s, p, b);
      path := up + [b];
    }
  }

  /** Whatever is reached from the system actor is registered under its own name. */
  lemma {:induction false} ReachedIsRegistered(s: Store, path: seq<Actor>, b: Actor)
    requires Tidy(s) && Reached(s, path, b)
    ensures Live(s, b)
    decreases |path|
  {
    if |path| > 1 {
      var up := path[..|path| - 1];
      var p := up[|up| - 1];
      assert p == path[|path| - 2];
      ReachedIsRegistered(s, up, p);
      assert LiveEdge(s, p, b);
      var c :| c in s.children[p] && c in s.target && s.target[c] == b;
      assert EntryOk(s, p, c);
    }
  }

  /**
   In a tidy tree `getActorRef` finds exactly the system actor and the live actors, each by a reference that
   leads to it and is its own.
   */
  lemma LookupFindsLive(s: Store, name: string)
    requires Tidy(s)
    ensures Wired(s)
    ensures LookedUp(s, name).None? <==> forall a :: a in s.children && Live(s, a) ==> a.name != name
    ensures LookedUp(s, name).Some? ==>
      var r := LookedUp(s, name).value;
      && r in s.target && s.target[r] in s.children && Live(s, s.target[r]) && s.target[r].name == name
      && s.target[r] in s.self && s.self[s.target[r]] == r
  {
    ClosedIsWired(s);
    if name != s.root.name && name in s.registry {
      assert s.registry[name] in s.children && Live(s, s.registry[name]);
    }
    assert Live(s, s.root);
  }
}

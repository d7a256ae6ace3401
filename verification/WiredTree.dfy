/**
 The atomic steps keep the references in order in any interleaving, be restarted actors renamed, restarted
 twice at a time or shut down meanwhile.
 */
module WiredTree {
  import opened ActorTree

  /** Every other actor's chain of parents ends at the system actor, so its name is longer. */
  lemma {:induction false} LongerName(s: Store, a: Actor)
    requires Wired(s) && a in s.children && a != s.root
    ensures |a.name| > |s.root.name|
    decreases |a.name|
  {
    var p := s.target[a.parent];
    if p != s.root {
      LongerName(s, p);
    }
  }

  ghost predicate CanInstantiate(s: Store, n: Actor, f: ActorRefImpl) {
    && n !in s.children && f !in s.target && n != s.root
    && n.parent != null && n.parent in s.target && |s.target[n.parent].name| < |n.name|
  }

  lemma InstantiateWired(s: Store, n: Actor, f: ActorRefImpl)
    requires Wired(s) && CanInstantiate(s, n, f)
    ensures Wired(Instantiate(s, n, f))
  {
  }

  lemma RegisterWired(s: Store, n: Actor)
    requires Wired(s) && n in s.children && n != s.root
    ensures CanRegister(s, n) && Wired(Register(s, n))
  {
    var s' := Register(s, n);
    assert |s.target[s.self[n]].name| == |n.name|;
    forall a, c {:trigger c in s'.children[a]} | a in s'.children && c in s'.children[a]
      ensures c in s'.target && s'.target[c] in s'.children && |a.name| < |s'.target[c].name|
    {
      assert c in s.children[a] || (a == s.target[n.parent] && c == s.self[n]);
    }
  }

  lemma ReplaceEnabled(s: Store, o: Actor, f: ActorRefImpl)
    requires Wired(s) && o in s.children && f in s.target && |s.target[f].name| == |o.name|
    ensures CanReplace(s, o, f)
  {
  }

  lemma RewireTreeGrows(s: Store, o: Actor, f: ActorRefImpl)
    requires CanReplace(s, o, f)
    ensures Grows(RewireTree(s, o, f)) && RewireTree(s, o, f).children.Keys == s.children.Keys
  {
    var s' := RewireTree(s, o, f);
    var s2 := UpdateTree(Taken(s, o, s.target[f]), s.root, s.target[s.self[o]].name, f);
    forall a, c {:trigger c in s'.children[a]} | a in s'.children && c in s'.children[a]
      ensures c in s'.target && s'.target[c] in s'.children && |a.name| < |s'.target[c].name|
    {
      assert c in s2.children[a];
    }
  }

  lemma RewireTreeSized(s: Store, o: Actor, f: ActorRefImpl)
    requires RefsKnown(s) && SelfSized(s) && ParentsShorter(s) && CanReplace(s, o, f)
    ensures var t := RewireTree(s, o, f); RefsKnown(t) && SelfSized(t) && ParentsShorter(t)
  {
    hide Grows, UpdateTree;
    var t := RewireTree(s, o, f);
    RewireTreeGrows(s, o, f);
    assert forall a :: a in t.children.Keys <==> a in s.children.Keys;
  }

  lemma RewireTreeWired(s: Store, o: Actor, f: ActorRefImpl)
    requires Wired(s) && CanReplace(s, o, f) && o != s.root
    ensures Wired(RewireTree(s, o, f))
  {
    hide Grows, UpdateTree, RefsKnown, ParentsShorter;
    var s' := RewireTree(s, o, f);
    RewireTreeGrows(s, o, f);
    RewireTreeSized(s, o, f);
    LongerName(s, o);
    assert s.self[o] != s.self[s.root];
    assert forall a :: a in s.children.Keys <==> a in s'.children.Keys;
  }

  lemma FinishWired(s: Store, a: Actor)
    requires Wired(s) && a in s.children
    ensures CanFinish(s, a) && Wired(Finish(s, a))
  {
    if a.parent != null {
      var s' := Finish(s, a);
      WithoutIn(s.children[s.target[a.parent]], s.self[a]);
      forall x, c {:trigger c in s'.children[x]} | x in s'.children && c in s'.children[x]
        ensures c in s'.target && s'.target[c] in s'.children && |x.name| < |s'.target[c].name|
      {
        assert c in s.children[x];
      }
    }
  }
}

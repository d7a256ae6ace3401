/**
 Actor names. A name is the parent's name, a slash and a local name, so the part before the
 last slash is the parent's name whenever the local name itself has no slash.
 */
module Paths {

  ghost predicate SlashFree(s: string) {
    '/' !in s
  }

  /** Everything before the last slash; the empty string when there is none. */
  function ParentPath(name: string): string {
    if name == "" then ""
    else if name[|name| - 1] == '/' then name[..|name| - 1]
    else ParentPath(name[..|name| - 1])
  }

  /** `child` is a name the system gives to a child of the actor called `parent`. */
  ghost predicate Below(parent: string, child: string) {
    ParentPath(child) == parent && |parent| < |child|
  }

  lemma {:induction false} ChildNameBelow(parent: string, local: string)
    requires SlashFree(local)
    ensures Below(parent, parent + "/" + local)
  {
    var name := parent + "/" + local;
    if local == "" {
      assert name[..|name| - 1] == parent;
    } else {
      var shorter := local[..|local| - 1];
      assert name[..|name| - 1] == parent + "/" + shorter;
      assert name[|name| - 1] == local[|local| - 1];
      ChildNameBelow(parent, shorter);
    }
  }
}

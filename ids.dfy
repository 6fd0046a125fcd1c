/** Generation of record ids. */
module Ids {

  /** Stands for str(uuid.uuid4()): callers may rely only on the new id not being one of the ids in use.
      (The body picks a string longer than every used one; no caller can see that.) */
  method FreshId(used: set<string>) returns (id: string)
    ensures id !in used
  {
    var rest := used;
    var longest: nat := 0;
    while rest != {}
      invariant forall s :: s in used && s !in rest ==> |s| <= longest
      decreases |rest|
    {
      var s :| s in rest;
      if |s| > longest {
        longest := |s|;
      }
      rest := rest - {s};
    }
    id := seq(longest + 1, _ => 'x');
  }
}

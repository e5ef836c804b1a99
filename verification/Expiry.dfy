/** The loops shared by the tables whose entries expire. */
module Expiry {
  type Time = int

  /** The keys of the entries that are too old. */
  method Collect<K, V>(entries: map<K, V>, tooOld: V -> bool) returns (found: set<K>)
    ensures found == set k | k in entries && tooOld(entries[k])
  {
    found := {};
    var todo := entries.Keys;
    while todo != {}
      invariant todo <= entries.Keys
      invariant found == set k | k in entries && k !in todo && tooOld(entries[k])
      decreases |todo|
    {
      var k :| k in todo;
      if tooOld(entries[k]) {
        found := found + {k};
      }
      todo := todo - {k};
    }
  }

  method RemoveAll<K, V>(entries: map<K, V>, gone: set<K>) returns (rest: map<K, V>)
    ensures rest == entries - gone
  {
    rest := entries;
    var todo := gone;
    while todo != {}
      invariant todo <= gone && rest == entries - (gone - todo)
      decreases |todo|
    {
      var k :| k in todo;
      rest := rest - {k};
      todo := todo - {k};
    }
  }
}

/**
  The key-merge that `AuditedAccountEmailDao.addEmail` and `removeEmail` perform
  before handing an account's emails to the shared audited save routine.

  The current emails are loaded, put into a map keyed by the email address (a
  later entry with the same address overwrites an earlier one), one key is then
  upserted or erased, and the map's values are what gets saved. The save routine
  itself is a sink here: the model stops at the collection it receives.
*/
module AccountEmails {
  import opened Wrappers

  /** One email address of an account. `id` is absent until the row is persisted. */
  datatype AccountEmail = AccountEmail(id: Option<string>, accountId: string, email: string)

  /** The natural key of an email record: its address (`getKey`). */
  function Key(e: AccountEmail): string {
    e.email
  }

  /**
    The natural key ignores identity: changing a record's id or account keeps
    its key, and two records share a key exactly when their addresses agree.
  */
  lemma KeyIgnoresIdentity(e: AccountEmail, other: AccountEmail, id: Option<string>, accountId: string)
    ensures Key(e.(id := id, accountId := accountId)) == Key(e)
    ensures Key(e) == Key(other) <==> e.email == other.email
  {
  }

  /** The addresses occurring in a collection of emails. */
  ghost function KeysOfSet(emails: set<AccountEmail>): set<string> {
    set e | e in emails :: Key(e)
  }

  /** The addresses occurring in a loaded list: those of its elements, as a collection. */
  ghost function KeysOf(emails: seq<AccountEmail>): set<string> {
    KeysOfSet(set e | e in emails)
  }

  /** Every entry of a keyed collection sits under its own address. */
  ghost predicate WellKeyed(keyed: map<string, AccountEmail>) {
    forall k :: k in keyed ==> Key(keyed[k]) == k
  }

  /** No two distinct records of a collection share an address. */
  ghost predicate DistinctKeys(emails: set<AccountEmail>) {
    forall a, b :: a in emails && b in emails && Key(a) == Key(b) ==> a == b
  }

  /** No later element of `emails` has the address of `emails[i]`. */
  ghost predicate LastWithKey(emails: seq<AccountEmail>, i: int)
    requires 0 <= i < |emails|
  {
    forall j :: i < j < |emails| ==> Key(emails[j]) != Key(emails[i])
  }

  /**
    The map built from the loaded emails, in load order: each address is bound
    to the last email carrying it.
  */
  function KeyByEmail(current: seq<AccountEmail>): (keyed: map<string, AccountEmail>)
    ensures keyed.Keys == KeysOf(current)
    ensures WellKeyed(keyed)
    ensures forall k :: k in keyed ==> keyed[k] in current
    ensures forall i :: 0 <= i < |current| && LastWithKey(current, i) ==>
              keyed[Key(current[i])] == current[i]
    decreases |current|
  {
    if |current| == 0 then map[]
    else
      var init := current[..|current| - 1];
      var last := current[|current| - 1];
      assert current == init + [last];
      KeyByEmail(init)[Key(last) := last]
  }

  /** The loop that loads the current emails into a map, as the DAO writes it. */
  method KeyCurrentEmails(current: seq<AccountEmail>) returns (keyed: map<string, AccountEmail>)
    ensures keyed == KeyByEmail(current)
  {
    keyed := map[];
    var i := 0;
    while i < |current|
      invariant 0 <= i <= |current|
      invariant keyed == KeyByEmail(current[..i])
    {
      assert current[..i + 1][..i] == current[..i];
      keyed := keyed[Key(current[i]) := current[i]];
      i := i + 1;
    }
    assert current[..|current|] == current;
  }

  /** Puts `e` under its address, replacing whatever was there. */
  function Upsert(keyed: map<string, AccountEmail>, e: AccountEmail): (r: map<string, AccountEmail>)
    ensures Key(e) in r && r[Key(e)] == e
    ensures r.Keys == keyed.Keys + {Key(e)}
    ensures forall k :: k in keyed && k != Key(e) ==> r[k] == keyed[k]
    ensures WellKeyed(keyed) ==> WellKeyed(r)
  {
    keyed[Key(e) := e]
  }

  /** Drops the entry under `key`, if there is one. */
  function Erase(keyed: map<string, AccountEmail>, key: string): (r: map<string, AccountEmail>)
    ensures key !in r
    ensures r.Keys == keyed.Keys - {key}
    ensures forall k :: k in r ==> r[k] == keyed[k]
    ensures WellKeyed(keyed) ==> WellKeyed(r)
  {
    keyed - {key}
  }

  /** The keyed collection `addEmail` builds: the loaded emails with `email` upserted. */
  function AddMerge(current: seq<AccountEmail>, email: AccountEmail): (r: map<string, AccountEmail>)
    ensures Key(email) in r && r[Key(email)] == email
    ensures r.Keys == KeysOf(current) + {Key(email)}
    ensures WellKeyed(r)
    ensures forall k :: k in r && k != Key(email) ==> r[k] in current
    ensures forall i :: 0 <= i < |current| && LastWithKey(current, i) && Key(current[i]) != Key(email) ==>
              r[Key(current[i])] == current[i]
  {
    Upsert(KeyByEmail(current), email)
  }

  /** The keyed collection `removeEmail` builds: the loaded emails with `email`'s address erased. */
  function RemoveMerge(current: seq<AccountEmail>, email: AccountEmail): (r: map<string, AccountEmail>)
    ensures Key(email) !in r
    ensures r.Keys == KeysOf(current) - {Key(email)}
    ensures WellKeyed(r)
    ensures forall k :: k in r ==> r[k] in current
    ensures forall i :: 0 <= i < |current| && LastWithKey(current, i) && Key(current[i]) != Key(email) ==>
              r[Key(current[i])] == current[i]
  {
    Erase(KeyByEmail(current), Key(email))
  }

  /** In a well-keyed map no two records share an address, and the records' addresses are the keys. */
  lemma WellKeyedValuesDistinct(keyed: map<string, AccountEmail>)
    requires WellKeyed(keyed)
    ensures DistinctKeys(keyed.Values)
    ensures KeysOfSet(keyed.Values) == keyed.Keys
  {
  }

  /** Taking one key out of a well-keyed map takes exactly its record out of the values. */
  lemma WellKeyedValuesSplit(keyed: map<string, AccountEmail>, k: string)
    requires WellKeyed(keyed) && k in keyed
    ensures keyed.Values == (keyed - {k}).Values + {keyed[k]}
    ensures keyed[k] !in (keyed - {k}).Values
  {
    var rest := keyed - {k};
    forall v | v in keyed.Values ensures v in rest.Values + {keyed[k]} {
      var kv :| kv in keyed && keyed[kv] == v;
      if kv != k {
        assert rest[kv] == v;
      }
    }
    forall kr | kr in rest ensures rest[kr] != keyed[k] {
      assert Key(rest[kr]) == kr != k;
    }
  }

  /** A well-keyed map holds as many records as addresses. */
  lemma {:induction false} WellKeyedValuesCount(keyed: map<string, AccountEmail>)
    requires WellKeyed(keyed)
    ensures |keyed.Values| == |keyed.Keys|
    decreases |keyed.Keys|
  {
    if keyed.Keys != {} {
      var k :| k in keyed.Keys;
      var rest := keyed - {k};
      WellKeyedValuesCount(rest);
      WellKeyedValuesSplit(keyed, k);
      assert keyed.Keys == rest.Keys + {k};
    }
  }

  /** The collection `addEmail` passes to the save routine (the map's values; their order is unspecified). */
  function AddEmail(current: seq<AccountEmail>, email: AccountEmail): (saved: set<AccountEmail>)
    ensures email in saved
    ensures forall e :: e in saved && Key(e) == Key(email) ==> e == email
    ensures forall e :: e in saved ==> e == email || e in current
    ensures KeysOfSet(saved) == KeysOf(current) + {Key(email)}
    ensures DistinctKeys(saved)
    ensures |saved| == |KeysOf(current) + {Key(email)}|
    ensures forall i :: 0 <= i < |current| && LastWithKey(current, i) && Key(current[i]) != Key(email) ==>
              current[i] in saved
  {
    var keyed := AddMerge(current, email);
    WellKeyedValuesDistinct(keyed);
    WellKeyedValuesCount(keyed);
    keyed.Values
  }

  /** The collection `removeEmail` passes to the save routine. */
  function RemoveEmail(current: seq<AccountEmail>, email: AccountEmail): (saved: set<AccountEmail>)
    ensures forall e :: e in saved ==> Key(e) != Key(email) && e in current
    ensures KeysOfSet(saved) == KeysOf(current) - {Key(email)}
    ensures DistinctKeys(saved)
    ensures |saved| == |KeysOf(current) - {Key(email)}|
    ensures forall i :: 0 <= i < |current| && LastWithKey(current, i) && Key(current[i]) != Key(email) ==>
              current[i] in saved
  {
    var keyed := RemoveMerge(current, email);
    WellKeyedValuesDistinct(keyed);
    WellKeyedValuesCount(keyed);
    keyed.Values
  }

  /** The added email is the one and only entry under its address. */
  lemma AddHasExactlyOneEntryForKey(current: seq<AccountEmail>, email: AccountEmail)
    ensures var r := AddMerge(current, email);
            (set k | k in r && Key(r[k]) == Key(email)) == {Key(email)}
  {
  }

  /** An email already stored under the added address, but differing from it, is dropped, not kept beside it. */
  lemma AddReplacesSameKey(current: seq<AccountEmail>, email: AccountEmail, stored: AccountEmail)
    requires stored in current && Key(stored) == Key(email) && stored != email
    ensures stored !in AddEmail(current, email)
    ensures KeysOfSet(AddEmail(current, email)) == KeysOf(current)
  {
    assert stored in (set e | e in current);
    assert Key(email) in KeysOf(current);
    assert KeysOf(current) + {Key(email)} == KeysOf(current);
  }

  /** Adding one email is the bulk load of the current list with that email appended. */
  lemma AddIsBulkMergeWithAppended(current: seq<AccountEmail>, email: AccountEmail)
    ensures AddMerge(current, email) == KeyByEmail(current + [email])
  {
  }

  /** Adding the same email twice leaves the keyed collection as adding it once. */
  lemma AddIsIdempotent(current: seq<AccountEmail>, email: AccountEmail)
    ensures Upsert(AddMerge(current, email), email) == AddMerge(current, email)
    ensures KeyByEmail(current + [email, email]) == AddMerge(current, email)
  {
    var all := current + [email, email];
    assert all[..|all| - 1] == current + [email];
    AddIsBulkMergeWithAppended(current, email);
  }

  /**
    Loading back a saved collection, in any order and with any repetitions,
    rebuilds exactly the keyed map it came from.
  */
  lemma ReloadRebuildsKeyedMap(keyed: map<string, AccountEmail>, reloaded: seq<AccountEmail>)
    requires WellKeyed(keyed)
    requires forall e :: e in reloaded <==> e in keyed.Values
    ensures KeyByEmail(reloaded) == keyed
  {
    var r := KeyByEmail(reloaded);
    forall k | k in keyed.Keys ensures k in r.Keys {
      assert keyed[k] in keyed.Values;
      assert keyed[k] in reloaded;
    }
    forall k | k in r.Keys ensures k in keyed.Keys && r[k] == keyed[k] {
      var v := r[k];
      assert v in keyed.Values;
      var kv :| kv in keyed && keyed[kv] == v;
    }
  }

  /**
    A second `addEmail` of the same email, run against whatever the first one
    saved (read back in any order), produces the same keyed collection.
  */
  lemma AddTwiceAcrossCalls(current: seq<AccountEmail>, email: AccountEmail, reloaded: seq<AccountEmail>)
    requires forall e :: e in reloaded <==> e in AddEmail(current, email)
    ensures AddMerge(reloaded, email) == AddMerge(current, email)
  {
    var keyed := AddMerge(current, email);
    assert AddEmail(current, email) == keyed.Values;
    ReAddToReloaded(keyed, email, reloaded);
  }

  /** Upserting a record into a reload of a keyed map that already holds it rebuilds that map. */
  lemma ReAddToReloaded(keyed: map<string, AccountEmail>, email: AccountEmail, reloaded: seq<AccountEmail>)
    requires WellKeyed(keyed) && Key(email) in keyed && keyed[Key(email)] == email
    requires forall e :: e in reloaded <==> e in keyed.Values
    ensures Upsert(KeyByEmail(reloaded), email) == keyed
  {
    ReloadRebuildsKeyedMap(keyed, reloaded);
  }

  /** Removing an address that is not loaded changes nothing, and is not an error. */
  lemma RemoveAbsentIsNoop(current: seq<AccountEmail>, email: AccountEmail)
    requires Key(email) !in KeysOf(current)
    ensures RemoveMerge(current, email) == KeyByEmail(current)
    ensures RemoveEmail(current, email) == KeyByEmail(current).Values
  {
  }

  /** When the loaded addresses are already distinct, a no-op removal saves exactly the loaded emails. */
  lemma RemoveAbsentSavesCurrent(current: seq<AccountEmail>, email: AccountEmail)
    requires Key(email) !in KeysOf(current)
    requires forall i, j :: 0 <= i < j < |current| ==> Key(current[i]) != Key(current[j])
    ensures RemoveEmail(current, email) == set e | e in current
  {
  }

  /** Removing after adding the same address is the same as just removing it. */
  lemma RemoveUndoesAdd(current: seq<AccountEmail>, email: AccountEmail)
    ensures Erase(AddMerge(current, email), Key(email)) == RemoveMerge(current, email)
  {
  }

  /** Identity plays no part: two emails with the same address but any ids are merged as the same record. */
  lemma OnlyTheAddressDecides(current: seq<AccountEmail>, a: AccountEmail, b: AccountEmail)
    requires Key(a) == Key(b)
    ensures RemoveMerge(current, a) == RemoveMerge(current, b)
    ensures AddMerge(current, a).Keys == AddMerge(current, b).Keys
    ensures AddMerge(current, b) == Upsert(AddMerge(current, a), b)
  {
  }
}

/** Set reservations: a soft claim by one picker on a set code within a batch, so
    that two people do not pick the same set. Submitting the name that already
    holds a set releases it; any other name claims it, overwriting a previous
    holder. The set_reservations table is a map from (batch, set code) to holder;
    its time stamps are left out. */
module Reservations {
  import opened Common

  /** The claimant: `(reserved_by or 'anonymous').strip() or 'anonymous'`. */
  function Claimant(raw: Option<string>): string {
    var stripped := Strip(if Truthy(raw) then raw.value else "anonymous");
    if stripped == "" then "anonymous" else stripped
  }

  /** The claimant is never blank, carries no surrounding whitespace, and is the
      submitted name itself when that name is already stripped and non-empty. */
  lemma ClaimantFacts(raw: Option<string>)
    ensures var c := Claimant(raw);
            && c != "" && !IsSpace(c[0]) && !IsSpace(c[|c| - 1])
            && Strip(c) == c
            && (!Truthy(raw) ==> c == "anonymous")
            && (Truthy(raw) && Strip(raw.value) == raw.value ==> c == raw.value)
  {
    var c := Claimant(raw);
    assert !IsSpace('a') && !IsSpace('s');
    assert "anonymous"[0] == 'a' && "anonymous"[8] == 's';
    if !Truthy(raw) {
      StripId("anonymous");
    }
    StripId(c);
  }

  type Key = (int, string)

  /** The state a reserve_set request leaves and its answer: the new holder, or
      None when the request released the set. */
  datatype Toggle = Toggle(holders: map<Key, string>, holder: Option<string>)

  /** reserve_set on the table, with the set code lowercased. */
  function Reserve(holders: map<Key, string>, batchId: int, setCode: string, raw: Option<string>): (r: Toggle)
    ensures var key := (batchId, Lower(setCode));
            && (r.holder.None? <==> key in holders && holders[key] == Claimant(raw))
            && (r.holder.None? ==> r.holders == holders - {key})
            && (r.holder.Some? ==> r.holder.value == Claimant(raw) && r.holders == holders[key := Claimant(raw)])
  {
    var key := (batchId, Lower(setCode));
    var claimant := Claimant(raw);
    if key in holders && holders[key] == claimant then Toggle(holders - {key}, None)
    else Toggle(holders[key := claimant], Some(claimant))
  }

  /** Only the requested (batch, set) entry changes. */
  lemma ReserveOthersUnchanged(holders: map<Key, string>, batchId: int, setCode: string, raw: Option<string>, other: Key)
    requires other != (batchId, Lower(setCode))
    ensures other in Reserve(holders, batchId, setCode, raw).holders <==> other in holders
    ensures other in holders ==> Reserve(holders, batchId, setCode, raw).holders[other] == holders[other]
  {
  }

  /** The same claimant submitting twice restores the table, unless someone else
      held the set before: then the set ends up free. */
  lemma ReserveTwice(holders: map<Key, string>, batchId: int, setCode: string, raw: Option<string>)
    ensures var key := (batchId, Lower(setCode));
            var twice := Reserve(Reserve(holders, batchId, setCode, raw).holders, batchId, setCode, raw);
            && (key !in holders || holders[key] == Claimant(raw) ==> twice.holders == holders)
            && (key in holders && holders[key] != Claimant(raw) ==> twice.holders == holders - {key})
  {
    var key := (batchId, Lower(setCode));
    var c := Claimant(raw);
    if key in holders && holders[key] == c {
      PutBack(holders, key, c);
    } else if key !in holders {
      TakeBack(holders, key, c);
    } else {
      Overwritten(holders, key, c);
    }
  }

  /** Removing a key and putting its value back restores the map. */
  lemma PutBack(m: map<Key, string>, key: Key, v: string)
    requires key in m && m[key] == v
    ensures (m - {key})[key := v] == m
  {
    var r := (m - {key})[key := v];
    assert r.Keys == m.Keys;
    forall k | k in m ensures r[k] == m[k] {
    }
  }

  /** Inserting a new key and removing it restores the map. */
  lemma TakeBack(m: map<Key, string>, key: Key, v: string)
    requires key !in m
    ensures m[key := v] - {key} == m
  {
    var r := m[key := v] - {key};
    assert r.Keys == m.Keys;
    forall k | k in m ensures r[k] == m[k] {
    }
  }

  /** Overwriting a key and removing it is removing it. */
  lemma Overwritten(m: map<Key, string>, key: Key, v: string)
    ensures m[key := v] - {key} == m - {key}
  {
    var r := m[key := v] - {key};
    assert r.Keys == m.Keys - {key};
    forall k | k in r ensures r[k] == (m - {key})[k] {
    }
  }

  /** A non-empty name without surrounding whitespace. */
  predicate Stripped(name: string) {
    name != "" && !IsSpace(name[0]) && !IsSpace(name[|name| - 1])
  }

  /** The example of claiming, releasing and overwriting, for any two different
      names such as alice and bob: alice claims the free set MH3 (stored as mh3),
      alice again releases it, and bob overwrites alice. */
  lemma ReserveExample(alice: string, bob: string)
    requires Stripped(alice) && Stripped(bob) && alice != bob
    ensures Reserve(map[], 1, "MH3", Some(alice)) == Toggle(map[(1, "mh3") := alice], Some(alice))
    ensures Reserve(map[(1, "mh3") := alice], 1, "mh3", Some(alice)) == Toggle(map[], None)
    ensures Reserve(map[(1, "mh3") := alice], 1, "MH3", Some(bob)) == Toggle(map[(1, "mh3") := bob], Some(bob))
  {
    ClaimantOfStripped(alice);
    ClaimantOfStripped(bob);
    LowerExample();
    ClaimFree(alice);
    ReleaseOwn(alice);
    Overwrite(alice, bob);
  }

  lemma ClaimFree(alice: string)
    requires Claimant(Some(alice)) == alice && Lower("MH3") == "mh3"
    ensures Reserve(map[], 1, "MH3", Some(alice)) == Toggle(map[(1, "mh3") := alice], Some(alice))
  {
    var none: map<Key, string> := map[];
    assert none[(1, "mh3") := alice] == map[(1, "mh3") := alice];
  }

  lemma ReleaseOwn(alice: string)
    requires Claimant(Some(alice)) == alice && Lower("mh3") == "mh3"
    ensures Reserve(map[(1, "mh3") := alice], 1, "mh3", Some(alice)) == Toggle(map[], None)
  {
    var one: map<Key, string> := map[(1, "mh3") := alice];
    assert one - {(1, "mh3")} == map[];
  }

  lemma Overwrite(alice: string, bob: string)
    requires Claimant(Some(bob)) == bob && alice != bob && Lower("MH3") == "mh3"
    ensures Reserve(map[(1, "mh3") := alice], 1, "MH3", Some(bob)) == Toggle(map[(1, "mh3") := bob], Some(bob))
  {
    var one: map<Key, string> := map[(1, "mh3") := alice];
    assert one[(1, "mh3") := bob] == map[(1, "mh3") := bob];
  }

  lemma ClaimantOfStripped(name: string)
    requires Stripped(name)
    ensures Claimant(Some(name)) == name
  {
    StripId(name);
  }

  lemma LowerExample()
    ensures Lower("MH3") == "mh3" && Lower("mh3") == "mh3"
  {
    var u := Lower("MH3");
    assert u[0] == LowerChar('M') == 'm' && u[1] == LowerChar('H') == 'h' && u[2] == LowerChar('3') == '3';
    var l := Lower("mh3");
    assert l[0] == 'm' && l[1] == 'h' && l[2] == '3';
  }

  /** Every holder in the table is a stripped, non-blank name under a lowercase set code. */
  ghost predicate WellKept(holders: map<Key, string>) {
    forall k :: k in holders ==> Lower(k.1) == k.1 && holders[k] != "" && Strip(holders[k]) == holders[k]
  }

  lemma LowerIdempotent(s: string)
    ensures Lower(Lower(s)) == Lower(s)
  {
  }

  lemma ReserveKeepsWellKept(holders: map<Key, string>, batchId: int, setCode: string, raw: Option<string>)
    requires WellKept(holders)
    ensures WellKept(Reserve(holders, batchId, setCode, raw).holders)
  {
    LowerIdempotent(setCode);
    ClaimantFacts(raw);
  }

  /** A set_reserved message to the batch's viewers. */
  datatype Notice = Notice(batchId: int, setCode: string, reservedBy: Option<string>)

  /** The set_reservations table. */
  class ReservationTable {
    var holders: map<Key, string>

    constructor ()
      ensures holders == map[]
    {
      holders := map[];
    }

    /** reserve_set: returns the response's reserved_by and the message broadcast. */
    method ReserveSet(batchId: int, setCode: string, raw: Option<string>) returns (reservedBy: Option<string>, notice: Notice)
      modifies this
      ensures Toggle(holders, reservedBy) == Reserve(old(holders), batchId, setCode, raw)
      ensures notice == Notice(batchId, Lower(setCode), reservedBy)
    {
      var code := Lower(setCode);
      var name := if raw.Some? && raw.value != "" then raw.value else "anonymous";
      name := Strip(name);
      if name == "" {
        name := "anonymous";
      }
      var key := (batchId, code);
      if key in holders && holders[key] == name {
        holders := holders - {key};
        return None, Notice(batchId, code, None);
      }
      holders := holders[key := name];
      reservedBy := Some(name);
      notice := Notice(batchId, code, reservedBy);
    }
  }
}

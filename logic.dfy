/** The list helpers of the pick list: the display order of batch items, the
    remaining quantity, the missing flag, quantity aggregation by catalog id and the
    undo deadline. */
module Logic {
  import opened Common
  import opened Ordering
  import opened Items
  import opened Sums

  // ---------------------------------------------------------------------------
  // Sort key and sort

  /** The first component of the sort key: a rank and the game name. */
  datatype GameKey = GameKey(rank: int, name: string)

  /** The whole sort key of one item. */
  datatype SortKey = SortKey(game: GameKey, setMissing: int, setCode: string, cardName: string)

  predicate IsMagic(game: string) {
    StartsWith(Lower(game), "magic")
  }

  function GameSortKey(game: Option<string>): GameKey {
    if !Truthy(game) then GameKey(2, "")
    else if IsMagic(game.value) then GameKey(0, game.value)
    else GameKey(1, game.value)
  }

  function KeyOf(item: BatchItem): SortKey {
    var setCode := Strip(OrEmpty(item.setCode));
    SortKey(GameSortKey(item.game), if setCode == "" then 1 else 0, setCode, OrEmpty(item.cardName))
  }

  /** Python's tuple comparison of two sort keys. */
  predicate KeyLt(a: SortKey, b: SortKey) {
    if a.game.rank != b.game.rank then a.game.rank < b.game.rank
    else if a.game.name != b.game.name then StrLt(a.game.name, b.game.name)
    else if a.setMissing != b.setMissing then a.setMissing < b.setMissing
    else if a.setCode != b.setCode then StrLt(a.setCode, b.setCode)
    else StrLt(a.cardName, b.cardName)
  }

  predicate KeyLe(a: SortKey, b: SortKey) {
    !KeyLt(b, a)
  }

  lemma KeyLtIrreflexive(a: SortKey)
    ensures !KeyLt(a, a)
  {
    StrLtIrreflexive(a.cardName);
  }

  lemma KeyLtTransitive(a: SortKey, b: SortKey, c: SortKey)
    requires KeyLt(a, b) && KeyLt(b, c)
    ensures KeyLt(a, c)
  {
    if a.game.rank == b.game.rank == c.game.rank {
      if a.game.name != b.game.name && b.game.name != c.game.name {
        StrLtTransitive(a.game.name, b.game.name, c.game.name);
        if a.game.name == c.game.name { StrLtAsymmetric(a.game.name, b.game.name); }
      } else if a.game.name == b.game.name == c.game.name && a.setMissing == b.setMissing == c.setMissing {
        if a.setCode != b.setCode && b.setCode != c.setCode {
          StrLtTransitive(a.setCode, b.setCode, c.setCode);
          if a.setCode == c.setCode { StrLtAsymmetric(a.setCode, b.setCode); }
        } else if a.setCode == b.setCode == c.setCode {
          StrLtTransitive(a.cardName, b.cardName, c.cardName);
        }
      }
    }
  }

  lemma KeyLtTotal(a: SortKey, b: SortKey)
    ensures a == b || KeyLt(a, b) || KeyLt(b, a)
  {
    StrLtTotal(a.game.name, b.game.name);
    StrLtTotal(a.setCode, b.setCode);
    StrLtTotal(a.cardName, b.cardName);
  }

  lemma KeyLeTransitive(a: SortKey, b: SortKey, c: SortKey)
    requires KeyLe(a, b) && KeyLe(b, c)
    ensures KeyLe(a, c)
  {
    KeyLtTotal(a, b);
    KeyLtTotal(b, c);
    if KeyLt(c, a) {
      if a == b { } else if b == c { } else { KeyLtTransitive(c, a, b); }
    }
  }

  lemma KeyLtAsymmetric(a: SortKey, b: SortKey)
    ensures !(KeyLt(a, b) && KeyLt(b, a))
  {
    if KeyLt(a, b) && KeyLt(b, a) {
      KeyLtTransitive(a, b, a);
      KeyLtIrreflexive(a);
    }
  }

  /** Magic games (by case-insensitive prefix) sort before every other named game,
      and named games sort before a missing or empty one. */
  lemma GameRankOrder(a: BatchItem, b: BatchItem)
    ensures Truthy(a.game) && IsMagic(a.game.value) && !(Truthy(b.game) && IsMagic(b.game.value))
            ==> KeyLt(KeyOf(a), KeyOf(b))
    ensures Truthy(a.game) && !Truthy(b.game) ==> KeyLt(KeyOf(a), KeyOf(b))
  {
  }

  /** Within one game, an item with a non-blank set code sorts before one whose set
      code is missing or only whitespace; then set codes, then card names, decide. */
  lemma WithinGameOrder(a: BatchItem, b: BatchItem)
    requires GameSortKey(a.game) == GameSortKey(b.game)
    ensures Strip(OrEmpty(a.setCode)) != "" && Strip(OrEmpty(b.setCode)) == "" ==> KeyLt(KeyOf(a), KeyOf(b))
    ensures (Strip(OrEmpty(a.setCode)) != "" && Strip(OrEmpty(b.setCode)) != ""
             && StrLt(Strip(OrEmpty(a.setCode)), Strip(OrEmpty(b.setCode)))) ==> KeyLt(KeyOf(a), KeyOf(b))
    ensures Strip(OrEmpty(a.setCode)) == Strip(OrEmpty(b.setCode))
            ==> (KeyLt(KeyOf(a), KeyOf(b)) <==> StrLt(OrEmpty(a.cardName), OrEmpty(b.cardName)))
  {
    if StrLt(Strip(OrEmpty(a.setCode)), Strip(OrEmpty(b.setCode))) {
      StrLtIrreflexive(Strip(OrEmpty(a.setCode)));
    }
  }

  ghost predicate SortedByKey<T>(s: seq<T>, key: T -> SortKey) {
    forall i, j :: 0 <= i < j < |s| ==> KeyLe(key(s[i]), key(s[j]))
  }

  /** An item paired with its key, computed once per item as sorted(key=...) does. */
  datatype Keyed<T> = Keyed(key: SortKey, item: T)

  function Decorate<T>(items: seq<T>, key: T -> SortKey): (r: seq<Keyed<T>>)
    ensures |r| == |items|
    ensures forall i :: 0 <= i < |r| ==> r[i] == Keyed(key(items[i]), items[i])
  {
    seq(|items|, i requires 0 <= i < |items| => Keyed(key(items[i]), items[i]))
  }

  function Undecorate<T>(s: seq<Keyed<T>>): seq<T> {
    if s == [] then [] else Undecorate(s[..|s| - 1]) + [s[|s| - 1].item]
  }

  ghost predicate SortedKeyed<T>(s: seq<Keyed<T>>) {
    forall i, j :: 0 <= i < j < |s| ==> KeyLe(s[i].key, s[j].key)
  }

  /** Insert x into s after every element whose key is not above x's. */
  function InsertKeyed<T>(s: seq<Keyed<T>>, x: Keyed<T>): seq<Keyed<T>> {
    if s == [] then [x]
    else if KeyLe(s[|s| - 1].key, x.key) then s + [x]
    else InsertKeyed(s[..|s| - 1], x) + [s[|s| - 1]]
  }

  function SortKeyed<T>(s: seq<Keyed<T>>): seq<Keyed<T>> {
    if s == [] then [] else InsertKeyed(SortKeyed(s[..|s| - 1]), s[|s| - 1])
  }

  /** sorted(items, key=key), as a stable insertion sort on decorated items. */
  function SortBy<T>(items: seq<T>, key: T -> SortKey): seq<T> {
    Undecorate(SortKeyed(Decorate(items, key)))
  }

  /** sort_items: sorted(items, key=KeyOf). */
  function SortItems(items: seq<BatchItem>): seq<BatchItem> {
    SortBy(items, KeyOf)
  }

  lemma AppendSorted<T>(s: seq<Keyed<T>>, x: Keyed<T>)
    requires SortedKeyed(s) && s != [] && KeyLe(s[|s| - 1].key, x.key)
    ensures SortedKeyed(s + [x])
  {
    var n := |s| - 1;
    forall i | 0 <= i < n ensures KeyLe(s[i].key, x.key) {
      KeyLeTransitive(s[i].key, s[n].key, x.key);
    }
  }

  lemma AppendAboveSorted<T>(rest: seq<Keyed<T>>, prefix: seq<Keyed<T>>, x: Keyed<T>, top: Keyed<T>)
    requires SortedKeyed(rest) && SortedKeyed(prefix + [top])
    requires multiset(rest) == multiset(prefix) + multiset{x}
    requires KeyLt(x.key, top.key)
    ensures SortedKeyed(rest + [top])
  {
    var n := |prefix|;
    forall j | 0 <= j < |rest| ensures KeyLe(rest[j].key, top.key) {
      var y := rest[j];
      assert y in multiset(rest);
      if y == x {
        KeyLtAsymmetric(top.key, x.key);
      } else {
        assert y in multiset(prefix);
        var k :| 0 <= k < n && prefix[k] == y;
        assert (prefix + [top])[k] == y && (prefix + [top])[n] == top;
      }
    }
  }

  lemma {:induction false} InsertKeyedSorted<T>(s: seq<Keyed<T>>, x: Keyed<T>)
    requires SortedKeyed(s)
    ensures multiset(InsertKeyed(s, x)) == multiset(s) + multiset{x}
    ensures SortedKeyed(InsertKeyed(s, x))
    decreases |s|
  {
    if s != [] {
      var n := |s| - 1;
      if KeyLe(s[n].key, x.key) {
        AppendSorted(s, x);
      } else {
        assert s == s[..n] + [s[n]];
        InsertKeyedSorted(s[..n], x);
        AppendAboveSorted(InsertKeyed(s[..n], x), s[..n], x, s[n]);
      }
    }
  }

  lemma {:induction false} SortKeyedSorted<T>(s: seq<Keyed<T>>)
    ensures multiset(SortKeyed(s)) == multiset(s)
    ensures SortedKeyed(SortKeyed(s))
    decreases |s|
  {
    if s != [] {
      var n := |s| - 1;
      assert s == s[..n] + [s[n]];
      SortKeyedSorted(s[..n]);
      InsertKeyedSorted(SortKeyed(s[..n]), s[n]);
    }
  }

  /** The elements of s whose key is k, in the order of s. */
  function WithKeyed<T>(s: seq<Keyed<T>>, k: SortKey): seq<Keyed<T>> {
    if s == [] then []
    else WithKeyed(s[..|s| - 1], k) + (if s[|s| - 1].key == k then [s[|s| - 1]] else [])
  }

  lemma {:induction false} InsertKeyedWithKey<T>(s: seq<Keyed<T>>, x: Keyed<T>, k: SortKey)
    ensures WithKeyed(InsertKeyed(s, x), k) == WithKeyed(s, k) + (if x.key == k then [x] else [])
    decreases |s|
  {
    if s == [] {
      assert WithKeyed([x], k) == WithKeyed([], k) + (if x.key == k then [x] else []);
    } else {
      var n := |s| - 1;
      if KeyLe(s[n].key, x.key) {
        assert (s + [x])[..|s|] == s;
      } else {
        var rest := InsertKeyed(s[..n], x);
        InsertKeyedWithKey(s[..n], x, k);
        assert (rest + [s[n]])[..|rest|] == rest;
        assert s[..n + 1] == s;
        if x.key == k { KeyLtIrreflexive(k); }
      }
    }
  }

  lemma {:induction false} SortKeyedStable<T>(s: seq<Keyed<T>>, k: SortKey)
    ensures WithKeyed(SortKeyed(s), k) == WithKeyed(s, k)
    decreases |s|
  {
    if s != [] {
      var n := |s| - 1;
      SortKeyedStable(s[..n], k);
      InsertKeyedWithKey(SortKeyed(s[..n]), s[n], k);
    }
  }

  function ItemOf<T>(e: Keyed<T>): seq<T> {
    [e.item]
  }

  lemma {:induction false} UndecorateFacts<T>(s: seq<Keyed<T>>)
    ensures Undecorate(s) == FlatMap(s, ItemOf)
    ensures |Undecorate(s)| == |s|
    ensures forall i :: 0 <= i < |s| ==> Undecorate(s)[i] == s[i].item
    decreases |s|
  {
    if s != [] { UndecorateFacts(s[..|s| - 1]); }
  }

  ghost predicate WellKeyed<T>(s: seq<Keyed<T>>, key: T -> SortKey) {
    forall i :: 0 <= i < |s| ==> s[i].key == key(s[i].item)
  }

  lemma {:induction false} WellKeyedPermutation<T>(a: seq<Keyed<T>>, b: seq<Keyed<T>>, key: T -> SortKey)
    requires WellKeyed(a, key) && multiset(a) == multiset(b)
    ensures WellKeyed(b, key)
  {
    forall i | 0 <= i < |b| ensures b[i].key == key(b[i].item) {
      assert b[i] in multiset(a);
    }
  }

  /** The items with key k, in the order of s. */
  function WithKey<T>(s: seq<T>, key: T -> SortKey, k: SortKey): seq<T> {
    if s == [] then []
    else WithKey(s[..|s| - 1], key, k) + (if key(s[|s| - 1]) == k then [s[|s| - 1]] else [])
  }

  lemma {:induction false} WithKeyUndecorate<T>(s: seq<Keyed<T>>, key: T -> SortKey, k: SortKey)
    requires WellKeyed(s, key)
    ensures WithKey(Undecorate(s), key, k) == Undecorate(WithKeyed(s, k))
    decreases |s|
  {
    if s != [] {
      var n := |s| - 1;
      var p := s[..n];
      assert WellKeyed(p, key) by {
        forall i | 0 <= i < n ensures p[i].key == key(p[i].item) { assert p[i] == s[i]; }
      }
      WithKeyUndecorate(p, key, k);
      var u := Undecorate(s);
      assert u == Undecorate(p) + [s[n].item];
      assert u[..|u| - 1] == Undecorate(p);
      assert key(s[n].item) == s[n].key;
      var w := WithKeyed(p, k);
      if s[n].key == k {
        assert WithKeyed(s, k) == w + [s[n]];
        assert (w + [s[n]])[..|w|] == w;
        assert Undecorate(w + [s[n]]) == Undecorate(w) + [s[n].item];
        assert WithKey(u, key, k) == WithKey(Undecorate(p), key, k) + [s[n].item];
      } else {
        assert WithKeyed(s, k) == w;
        assert WithKey(u, key, k) == WithKey(Undecorate(p), key, k);
      }
    }
  }

  lemma {:induction false} UndecorateDecorate<T>(items: seq<T>, key: T -> SortKey)
    ensures Undecorate(Decorate(items, key)) == items
    ensures WellKeyed(Decorate(items, key), key)
  {
    UndecorateFacts(Decorate(items, key));
  }

  /** sort_items returns exactly its input's items, nothing added or dropped, in
      key order. */
  lemma SortItemsSorted(items: seq<BatchItem>)
    ensures multiset(SortItems(items)) == multiset(items)
    ensures SortedByKey(SortItems(items), KeyOf)
  {
    var d := Decorate(items, KeyOf);
    var sk := SortKeyed(d);
    SortKeyedSorted(d);
    UndecorateDecorate(items, KeyOf);
    UndecorateFacts(d);
    UndecorateFacts(sk);
    FlatMapPermutation(sk, d, ItemOf);
    WellKeyedPermutation(d, sk, KeyOf);
    var r := SortItems(items);
    forall i, j | 0 <= i < j < |r| ensures KeyLe(KeyOf(r[i]), KeyOf(r[j])) {
      assert r[i] == sk[i].item && r[j] == sk[j].item;
    }
  }

  /** The sort is stable: for every key, the items with that key leave the sort in
      the order they entered it. */
  lemma SortItemsStable(items: seq<BatchItem>, k: SortKey)
    ensures WithKey(SortItems(items), KeyOf, k) == WithKey(items, KeyOf, k)
  {
    var d := Decorate(items, KeyOf);
    var sk := SortKeyed(d);
    SortKeyedSorted(d);
    UndecorateDecorate(items, KeyOf);
    WellKeyedPermutation(d, sk, KeyOf);
    WithKeyUndecorate(sk, KeyOf, k);
    WithKeyUndecorate(d, KeyOf, k);
    SortKeyedStable(d, k);
  }

  function Row(game: string, setCode: string, cardName: string): BatchItem {
    BatchItem(0, Some(game), Some(setCode), Some(cardName), None, None, 0, 0,
              None, None, None, None, None, None, None)
  }

  lemma KeyOfRow(game: string, setCode: string, cardName: string)
    ensures KeyOf(Row(game, setCode, cardName))
         == SortKey(GameSortKey(Some(game)), if Strip(setCode) == "" then 1 else 0, Strip(setCode), cardName)
  {
  }

  lemma ExampleGames()
    ensures GameSortKey(Some("Magic")) == GameKey(0, "Magic")
    ensures GameSortKey(Some("Pokemon")) == GameKey(1, "Pokemon")
  {
    assert Lower("Magic")[..5] == "magic";
    assert Lower("Pokemon")[0] == 'p';
  }

  lemma ZardKey()
    ensures KeyOf(Row("Pokemon", "sv1", "Zard")) == SortKey(GameKey(1, "Pokemon"), 0, "sv1", "Zard")
  {
    ExampleGames();
    StripId("sv1");
    KeyOfRow("Pokemon", "sv1", "Zard");
  }

  lemma OmegaKey()
    ensures KeyOf(Row("Magic", "", "Omega")) == SortKey(GameKey(0, "Magic"), 1, "", "Omega")
  {
    ExampleGames();
    KeyOfRow("Magic", "", "Omega");
  }

  lemma WoeKey(cardName: string)
    ensures KeyOf(Row("Magic", "woe", cardName)) == SortKey(GameKey(0, "Magic"), 0, "woe", cardName)
  {
    ExampleGames();
    StripId("woe");
    KeyOfRow("Magic", "woe", cardName);
  }

  lemma InsertBelowLast<T>(s: seq<Keyed<T>>, top: Keyed<T>, x: Keyed<T>)
    requires KeyLt(x.key, top.key)
    ensures InsertKeyed(s + [top], x) == InsertKeyed(s, x) + [top]
  {
    assert (s + [top])[..|s|] == s;
  }

  lemma SortKeyedLast<T>(s: seq<Keyed<T>>, x: Keyed<T>)
    ensures SortKeyed(s + [x]) == InsertKeyed(SortKeyed(s), x)
  {
    assert (s + [x])[..|s|] == s;
  }

  /** The shape of the sort test on keys alone: four elements whose keys are
      ordered b3 < b2 < b4 < b1 with b3 <= b4 leave as [b3, b4, b2, b1]. */
  lemma ExampleKeyedSort<T>(e1: Keyed<T>, e2: Keyed<T>, e3: Keyed<T>, e4: Keyed<T>)
    requires KeyLt(e2.key, e1.key) && KeyLt(e3.key, e1.key) && KeyLt(e4.key, e1.key)
    requires KeyLt(e3.key, e2.key) && KeyLt(e4.key, e2.key) && KeyLe(e3.key, e4.key)
    ensures SortKeyed([e1, e2, e3, e4]) == [e3, e4, e2, e1]
  {
    SortKeyedLast([], e1);
    assert SortKeyed([e1]) == [e1] by { assert [] + [e1] == [e1]; }
    SortKeyedLast([e1], e2);
    InsertBelowLast([], e1, e2);
    assert SortKeyed([e1, e2]) == [e2, e1];
    SortKeyedLast([e1, e2], e3);
    InsertBelowLast([e2], e1, e3);
    InsertBelowLast([], e2, e3);
    assert [e1, e2] + [e3] == [e1, e2, e3] && [e2] + [e1] == [e2, e1] && [] + [e2] == [e2];
    assert SortKeyed([e1, e2, e3]) == [e3, e2, e1];
    SortKeyedLast([e1, e2, e3], e4);
    InsertBelowLast([e3, e2], e1, e4);
    InsertBelowLast([e3], e2, e4);
    assert [e3, e2] + [e1] == [e3, e2, e1] && [e3] + [e2] == [e3, e2];
    assert [e1, e2, e3] + [e4] == [e1, e2, e3, e4];
  }

  lemma ExampleKeyOrder()
    ensures var kz := SortKey(GameKey(1, "Pokemon"), 0, "sv1", "Zard");
            var ko := SortKey(GameKey(0, "Magic"), 1, "", "Omega");
            var ka := SortKey(GameKey(0, "Magic"), 0, "woe", "Alpha");
            var kb := SortKey(GameKey(0, "Magic"), 0, "woe", "Beta");
            KeyLt(ko, kz) && KeyLt(ka, kz) && KeyLt(kb, kz) && KeyLt(ka, ko) && KeyLt(kb, ko) && KeyLe(ka, kb)
  {
    assert !StrLt("Beta", "Alpha");
  }

  /** The four rows of the repository's sort test, in the order the code puts them:
      the two Magic rows with set "woe" by name, then the Magic row without a set,
      and the Pokemon row last. */
  lemma SortFour<T>(i1: T, i2: T, i3: T, i4: T, key: T -> SortKey)
    requires KeyLt(key(i2), key(i1)) && KeyLt(key(i3), key(i1)) && KeyLt(key(i4), key(i1))
    requires KeyLt(key(i3), key(i2)) && KeyLt(key(i4), key(i2)) && KeyLe(key(i3), key(i4))
    ensures SortBy([i1, i2, i3, i4], key) == [i3, i4, i2, i1]
  {
    var e1, e2, e3, e4 := Keyed(key(i1), i1), Keyed(key(i2), i2), Keyed(key(i3), i3), Keyed(key(i4), i4);
    var d := Decorate([i1, i2, i3, i4], key);
    assert d == [e1, e2, e3, e4];
    ExampleKeyedSort(e1, e2, e3, e4);
    UndecorateFacts([e3, e4, e2, e1]);
  }

  lemma SortExample(zard: BatchItem, omega: BatchItem, alpha: BatchItem, beta: BatchItem)
    requires zard == Row("Pokemon", "sv1", "Zard") && omega == Row("Magic", "", "Omega")
    requires alpha == Row("Magic", "woe", "Alpha") && beta == Row("Magic", "woe", "Beta")
    ensures SortItems([zard, omega, alpha, beta]) == [alpha, beta, omega, zard]
  {
    ZardKey();
    OmegaKey();
    WoeKey("Alpha");
    WoeKey("Beta");
    ExampleKeyOrder();
    SortFour(zard, omega, alpha, beta, KeyOf);
  }

  /** The repository's test expects 'Omega' last, but the code puts the Pokemon
      row 'Zard' after every Magic row. */
  lemma SortTestLastAsWritten(zard: BatchItem, omega: BatchItem, alpha: BatchItem, beta: BatchItem)
    requires zard == Row("Pokemon", "sv1", "Zard") && omega == Row("Magic", "", "Omega")
    requires alpha == Row("Magic", "woe", "Alpha") && beta == Row("Magic", "woe", "Beta")
    ensures var out := SortItems([zard, omega, alpha, beta]);
            |out| == 4 && out[3].cardName == Some("Zard") && out[3].cardName != Some("Omega")
  {
    SortExample(zard, omega, alpha, beta);
    assert |"Zard"| != |"Omega"|;
  }

  /** What the test's last assertion evidently checks: within one game, an item
      with a blank set code sorts after every item with a set code. */
  lemma BlankSetLastInGame(items: seq<BatchItem>, i: nat, j: nat)
    requires i < |SortItems(items)| && j < |SortItems(items)|
    requires GameSortKey(SortItems(items)[i].game) == GameSortKey(SortItems(items)[j].game)
    requires Strip(OrEmpty(SortItems(items)[i].setCode)) == ""
    requires Strip(OrEmpty(SortItems(items)[j].setCode)) != ""
    ensures j < i
  {
    var r := SortItems(items);
    SortItemsSorted(items);
    if i < j {
      assert KeyLe(KeyOf(r[i]), KeyOf(r[j]));
      WithinGameOrder(r[j], r[i]);
    }
  }

  // ---------------------------------------------------------------------------
  // Remaining quantity and missing flag

  /** max(0, qty_required - qty_picked). */
  function RemainingQty(item: BatchItem): (r: int)
    ensures r >= 0
    ensures r >= item.qtyRequired - item.qtyPicked
    ensures r == 0 || r == item.qtyRequired - item.qtyPicked
  {
    if item.qtyRequired - item.qtyPicked > 0 then item.qtyRequired - item.qtyPicked else 0
  }

  /** Nothing remains exactly when the picked quantity has reached the required one. */
  lemma RemainingZero(item: BatchItem)
    ensures RemainingQty(item) == 0 <==> item.qtyPicked >= item.qtyRequired
  {
  }

  lemma RemainingExample()
    ensures RemainingQty(BatchItem(0, None, None, None, None, None, 3, 1, None, None, None, None, None, None, None)) == 2
  {
  }

  /** bool(item.get('is_missing')). */
  predicate IsMissing(item: BatchItem) {
    item.isMissing.Some? && item.isMissing.value != 0
  }

  lemma IsMissingExamples(item: BatchItem)
    ensures IsMissing(item.(isMissing := Some(1)))
    ensures !IsMissing(item.(isMissing := Some(0)))
    ensures !IsMissing(item.(isMissing := None))
  {
  }

  // ---------------------------------------------------------------------------
  // Aggregation by catalog id

  /** What the aggregation reads of a line: its catalog id and its quantity. */
  datatype QtyLine = QtyLine(scryfallId: Option<string>, quantity: Option<int>)

  /** int(item.get('quantity') or 1): a missing or zero quantity counts as one. */
  function LineQty(q: Option<int>): (r: int)
    ensures q.None? || q.value == 0 ==> r == 1
    ensures q.Some? && q.value != 0 ==> r == q.value
    ensures r != 0
  {
    if q.None? || q.value == 0 then 1 else q.value
  }

  /** The catalog ids that the aggregation keeps: the truthy ones. */
  ghost function IdsOf(lines: seq<QtyLine>): set<string> {
    set l | l in lines && Truthy(l.scryfallId) :: l.scryfallId.value
  }

  function QtyTerm(id: string, l: QtyLine): int {
    if l.scryfallId == Some(id) then LineQty(l.quantity) else 0
  }

  /** The sum of the quantities of the lines that carry the id. */
  function IdQuantity(lines: seq<QtyLine>, id: string): int {
    SumOf(lines, (l: QtyLine) => QtyTerm(id, l))
  }

  /** aggregate_by_scryfall: the keys are exactly the truthy ids present, and each
      value is the summed quantity of that id. */
  method AggregateByScryfall(lines: seq<QtyLine>) returns (r: map<string, int>)
    ensures r.Keys == IdsOf(lines)
    ensures forall id :: id in r ==> r[id] == IdQuantity(lines, id)
  {
    r := map[];
    var i := 0;
    while i < |lines|
      invariant 0 <= i <= |lines|
      invariant r.Keys == IdsOf(lines[..i])
      invariant forall id :: id in r ==> r[id] == IdQuantity(lines[..i], id)
      invariant forall id :: id != "" && id !in r ==> IdQuantity(lines[..i], id) == 0
    {
      var line := lines[i];
      assert lines[..i + 1] == lines[..i] + [line];
      assert lines[..i + 1][..i] == lines[..i];
      if Truthy(line.scryfallId) {
        var id := line.scryfallId.value;
        var prior := if id in r then r[id] else 0;
        r := r[id := prior + LineQty(line.quantity)];
      }
      i := i + 1;
    }
    assert lines[..i] == lines;
  }

  /** The aggregation does not depend on the order of its input. */
  lemma AggregateOrderIndependent(a: seq<QtyLine>, b: seq<QtyLine>, id: string)
    requires multiset(a) == multiset(b)
    ensures IdsOf(a) == IdsOf(b)
    ensures IdQuantity(a, id) == IdQuantity(b, id)
  {
    SumOfPermutation(a, b, (l: QtyLine) => QtyTerm(id, l));
    forall l | l in a ensures l in b { assert l in multiset(a); }
    forall l | l in b ensures l in a { assert l in multiset(b); }
  }

  lemma IdQuantityLast(lines: seq<QtyLine>, l: QtyLine, id: string)
    ensures IdQuantity(lines + [l], id) == IdQuantity(lines, id) + QtyTerm(id, l)
  {
    assert (lines + [l])[..|lines|] == lines;
  }

  /** The repository's aggregation test: {a:1, b:2, a:3} gives a = 4 and b = 2. */
  lemma AggregateExample()
    ensures var lines := [QtyLine(Some("a"), Some(1)), QtyLine(Some("b"), Some(2)), QtyLine(Some("a"), Some(3))];
            IdsOf(lines) == {"a", "b"} && IdQuantity(lines, "a") == 4 && IdQuantity(lines, "b") == 2
  {
    var l1, l2, l3 := QtyLine(Some("a"), Some(1)), QtyLine(Some("b"), Some(2)), QtyLine(Some("a"), Some(3));
    var lines := [l1, l2, l3];
    assert "a" != "b";
    assert [] + [l1] == [l1] && [l1] + [l2] == [l1, l2] && [l1, l2] + [l3] == lines;
    IdQuantityLast([], l1, "a");
    IdQuantityLast([l1], l2, "a");
    IdQuantityLast([l1, l2], l3, "a");
    IdQuantityLast([], l1, "b");
    IdQuantityLast([l1], l2, "b");
    IdQuantityLast([l1, l2], l3, "b");
    assert l1 in lines && l2 in lines;
  }

  // ---------------------------------------------------------------------------
  // Undo deadline

  /** now + timedelta(seconds=seconds), time in whole seconds; a missing `now` is
      the clock reading. */
  function ComputeUndoDeadline(now: Option<int>, clock: int, seconds: int): (r: int)
    ensures now.Some? ==> r - now.value == seconds
    ensures now.None? ==> r - clock == seconds
  {
    (if now.Some? then now.value else clock) + seconds
  }
}

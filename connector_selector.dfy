/**
 * The connector picker of the rule editor
 * (apps/aira-web/components/editor/connector-selector.tsx): the order in which connectors
 * are listed, and what each item shows and does when clicked.
 *
 * The list is a copy of the input sorted with a comparator on two keys: suggested first,
 * then connected first. `Array.prototype.sort` is stable, and for a comparator that is
 * consistent the result of any stable sort is the same sequence; the model computes it
 * with an insertion sort and proves that it is that sequence.
 */
module ConnectorSelector {
  import opened Wrappers

  datatype Icon = WhatsApp | Mail | Calendar | Drive

  datatype Connector = Connector(id: string, name: string, icon: Icon, isConnected: bool)

  /** `suggestedIds.includes(c.id)`. */
  predicate IsSuggested(c: Connector, suggestedIds: seq<string>) {
    c.id in suggestedIds
  }

  // ---------------------------------------------------------------------------
  // Ordering

  /**
   * The position of a connector's key class in the intended order: suggested and connected,
   * suggested and not connected, connected, neither.
   */
  function Rank(c: Connector, suggestedIds: seq<string>): (k: nat)
    ensures k < 4
    ensures k < 2 <==> IsSuggested(c, suggestedIds)
    ensures (k == 0 || k == 2) <==> c.isConnected
  {
    (if IsSuggested(c, suggestedIds) then 0 else 2) + (if c.isConnected then 0 else 1)
  }

  /** The comparator handed to `sort`: its sign is the comparison of the two key classes. */
  function Compare(a: Connector, b: Connector, suggestedIds: seq<string>): (r: int)
    ensures -1 <= r <= 1
    ensures r < 0 <==> Rank(a, suggestedIds) < Rank(b, suggestedIds)
    ensures r > 0 <==> Rank(a, suggestedIds) > Rank(b, suggestedIds)
  {
    var aIsSuggested := IsSuggested(a, suggestedIds);
    var bIsSuggested := IsSuggested(b, suggestedIds);
    if aIsSuggested && !bIsSuggested then -1
    else if !aIsSuggested && bIsSuggested then 1
    else if a.isConnected && !b.isConnected then -1
    else if !a.isConnected && b.isConnected then 1
    else 0
  }

  /** Places `x` in front of the first element it does not compare after. */
  function Insert(x: Connector, t: seq<Connector>, suggestedIds: seq<string>): (r: seq<Connector>)
    ensures multiset(r) == multiset(t) + multiset{x}
  {
    if t == [] then [x]
    else if Compare(x, t[0], suggestedIds) <= 0 then [x] + t
    else
      assert t == [t[0]] + t[1..];
      [t[0]] + Insert(x, t[1..], suggestedIds)
  }

  /** `[...connectors].sort(comparator)`: a new sequence; the input is a value and stays as it was. */
  function SortConnectors(connectors: seq<Connector>, suggestedIds: seq<string>): (r: seq<Connector>)
    ensures multiset(r) == multiset(connectors)
  {
    if connectors == [] then []
    else
      assert connectors == [connectors[0]] + connectors[1..];
      Insert(connectors[0], SortConnectors(connectors[1..], suggestedIds), suggestedIds)
  }

  /** The connectors of key class `k`, in the order they appear in `t`. */
  function OfRank(t: seq<Connector>, suggestedIds: seq<string>, k: nat): (r: seq<Connector>)
    ensures forall i :: 0 <= i < |r| ==> Rank(r[i], suggestedIds) == k
  {
    if t == [] then []
    else (if Rank(t[0], suggestedIds) == k then [t[0]] else []) + OfRank(t[1..], suggestedIds, k)
  }

  /** The four key classes one after the other, each in input order: what a stable sort yields. */
  function Grouped(t: seq<Connector>, suggestedIds: seq<string>): seq<Connector> {
    OfRank(t, suggestedIds, 0) + OfRank(t, suggestedIds, 1) + OfRank(t, suggestedIds, 2) + OfRank(t, suggestedIds, 3)
  }

  /** Ordered by key class. */
  predicate SortedByRank(t: seq<Connector>, suggestedIds: seq<string>) {
    forall i, j :: 0 <= i < j < |t| ==> Rank(t[i], suggestedIds) <= Rank(t[j], suggestedIds)
  }

  /** Every connector of `t` has a class in `[lo, hi)`. */
  predicate RanksWithin(t: seq<Connector>, suggestedIds: seq<string>, lo: nat, hi: nat) {
    forall i :: 0 <= i < |t| ==> lo <= Rank(t[i], suggestedIds) < hi
  }

  lemma RanksWithinConcat(a: seq<Connector>, b: seq<Connector>, suggestedIds: seq<string>, lo: nat, hi: nat)
    requires RanksWithin(a, suggestedIds, lo, hi) && RanksWithin(b, suggestedIds, lo, hi)
    ensures RanksWithin(a + b, suggestedIds, lo, hi)
  {
    forall i | 0 <= i < |a + b| ensures lo <= Rank((a + b)[i], suggestedIds) < hi {
      if i < |a| { assert (a + b)[i] == a[i]; } else { assert (a + b)[i] == b[i - |a|]; }
    }
  }

  /** Inserting past a run of lower classes and in front of a run of classes at least as high. */
  lemma {:induction false} InsertBetween(x: Connector, u: seq<Connector>, v: seq<Connector>, suggestedIds: seq<string>)
    requires RanksWithin(u, suggestedIds, 0, Rank(x, suggestedIds))
    requires RanksWithin(v, suggestedIds, Rank(x, suggestedIds), 4)
    ensures Insert(x, u + v, suggestedIds) == u + [x] + v
  {
    if u == [] {
      assert u + v == v;
      if v != [] {
        assert Compare(x, v[0], suggestedIds) <= 0;
      }
    } else {
      var y, w := u[0], u[1..];
      assert Rank(y, suggestedIds) < Rank(x, suggestedIds);
      assert RanksWithin(w, suggestedIds, 0, Rank(x, suggestedIds)) by {
        forall i | 0 <= i < |w| ensures Rank(w[i], suggestedIds) < Rank(x, suggestedIds) {
          assert w[i] == u[i + 1];
        }
      }
      assert u == [y] + w;
      ConsAssoc(y, w, x, v);
      var t := [y] + (w + v);
      assert t[0] == y && t[1..] == w + v;
      InsertBetween(x, w, v, suggestedIds);
    }
  }

  /** Regrouping a run that starts with `y`, around a later `x`. */
  lemma ConsAssoc<T>(y: T, w: seq<T>, x: T, v: seq<T>)
    ensures [y] + w + v == [y] + (w + v)
    ensures [y] + w + [x] + v == [y] + (w + [x] + v)
  {
  }

  /** Class `k` of `[x] + rest`: `x` in front of class `k` of `rest` when it is of that class. */
  lemma OfRankCons(x: Connector, rest: seq<Connector>, suggestedIds: seq<string>, k: nat)
    ensures OfRank([x] + rest, suggestedIds, k)
      == (if Rank(x, suggestedIds) == k then [x] else []) + OfRank(rest, suggestedIds, k)
  {
    assert ([x] + rest)[0] == x && ([x] + rest)[1..] == rest;
  }

  /** The classes below `k` and the classes from `k` on, each joined into one run. */
  lemma Widen(a0: seq<Connector>, a1: seq<Connector>, a2: seq<Connector>, a3: seq<Connector>, suggestedIds: seq<string>, k: nat)
    requires RanksWithin(a0, suggestedIds, 0, 1) && RanksWithin(a1, suggestedIds, 1, 2)
    requires RanksWithin(a2, suggestedIds, 2, 3) && RanksWithin(a3, suggestedIds, 3, 4)
    requires k < 4
    ensures k == 0 ==> RanksWithin(a0 + a1 + a2 + a3, suggestedIds, 0, 4)
    ensures k == 1 ==> RanksWithin(a0, suggestedIds, 0, 1) && RanksWithin(a1 + a2 + a3, suggestedIds, 1, 4)
    ensures k == 2 ==> RanksWithin(a0 + a1, suggestedIds, 0, 2) && RanksWithin(a2 + a3, suggestedIds, 2, 4)
    ensures k == 3 ==> RanksWithin(a0 + a1 + a2, suggestedIds, 0, 3) && RanksWithin(a3, suggestedIds, 3, 4)
  {
    assert RanksWithin(a0, suggestedIds, 0, 4) && RanksWithin(a1, suggestedIds, 0, 4);
    assert RanksWithin(a2, suggestedIds, 0, 4) && RanksWithin(a3, suggestedIds, 0, 4);
    assert RanksWithin(a1, suggestedIds, 0, 2) && RanksWithin(a2, suggestedIds, 0, 3);
    assert RanksWithin(a0, suggestedIds, 0, 2) && RanksWithin(a0, suggestedIds, 0, 3);
    assert RanksWithin(a1, suggestedIds, 0, 3) && RanksWithin(a1, suggestedIds, 1, 4);
    assert RanksWithin(a2, suggestedIds, 1, 4) && RanksWithin(a2, suggestedIds, 2, 4);
    assert RanksWithin(a3, suggestedIds, 1, 4) && RanksWithin(a3, suggestedIds, 2, 4);
    RanksWithinConcat(a0, a1, suggestedIds, 0, 4);
    RanksWithinConcat(a0 + a1, a2, suggestedIds, 0, 4);
    RanksWithinConcat(a0 + a1 + a2, a3, suggestedIds, 0, 4);
    RanksWithinConcat(a1, a2, suggestedIds, 1, 4);
    RanksWithinConcat(a1 + a2, a3, suggestedIds, 1, 4);
    assert a1 + a2 + a3 == (a1 + a2) + a3;
    RanksWithinConcat(a2, a3, suggestedIds, 2, 4);
    RanksWithinConcat(a0, a1, suggestedIds, 0, 2);
    RanksWithinConcat(a0, a1, suggestedIds, 0, 3);
    RanksWithinConcat(a0 + a1, a2, suggestedIds, 0, 3);
  }

  /** The regroupings of four runs and one more element that the insertion step uses. */
  lemma Regroup<T>(x: T, a0: seq<T>, a1: seq<T>, a2: seq<T>, a3: seq<T>)
    ensures [x] + a0 + a1 + a2 + a3 == [] + [x] + (a0 + a1 + a2 + a3)
    ensures a0 + ([x] + a1) + a2 + a3 == a0 + [x] + (a1 + a2 + a3)
    ensures a0 + a1 + ([x] + a2) + a3 == a0 + a1 + [x] + (a2 + a3)
    ensures a0 + a1 + a2 + ([x] + a3) == a0 + a1 + a2 + [x] + a3
    ensures a0 + a1 + a2 + a3 == [] + (a0 + a1 + a2 + a3)
    ensures a0 + a1 + a2 + a3 == a0 + (a1 + a2 + a3)
    ensures a0 + a1 + a2 + a3 == a0 + a1 + (a2 + a3)
  {
  }

  /** Inserting a connector into a grouped sequence puts it first in its own class. */
  lemma {:induction false} InsertGrouped(x: Connector, rest: seq<Connector>, suggestedIds: seq<string>)
    ensures Insert(x, Grouped(rest, suggestedIds), suggestedIds) == Grouped([x] + rest, suggestedIds)
  {
    var a0, a1, a2, a3 := OfRank(rest, suggestedIds, 0), OfRank(rest, suggestedIds, 1),
      OfRank(rest, suggestedIds, 2), OfRank(rest, suggestedIds, 3);
    var b0, b1, b2, b3 := OfRank([x] + rest, suggestedIds, 0), OfRank([x] + rest, suggestedIds, 1),
      OfRank([x] + rest, suggestedIds, 2), OfRank([x] + rest, suggestedIds, 3);
    OfRankCons(x, rest, suggestedIds, 0);
    OfRankCons(x, rest, suggestedIds, 1);
    OfRankCons(x, rest, suggestedIds, 2);
    OfRankCons(x, rest, suggestedIds, 3);
    Regroup(x, a0, a1, a2, a3);
    assert RanksWithin(a0, suggestedIds, 0, 1) && RanksWithin(a1, suggestedIds, 1, 2);
    assert RanksWithin(a2, suggestedIds, 2, 3) && RanksWithin(a3, suggestedIds, 3, 4);
    var k := Rank(x, suggestedIds);
    Widen(a0, a1, a2, a3, suggestedIds, k);
    if k == 0 {
      assert b0 == [x] + a0 && b1 == a1 && b2 == a2 && b3 == a3;
      InsertBetween(x, [], a0 + a1 + a2 + a3, suggestedIds);
    } else if k == 1 {
      assert b0 == a0 && b1 == [x] + a1 && b2 == a2 && b3 == a3;
      InsertBetween(x, a0, a1 + a2 + a3, suggestedIds);
    } else if k == 2 {
      assert b0 == a0 && b1 == a1 && b2 == [x] + a2 && b3 == a3;
      InsertBetween(x, a0 + a1, a2 + a3, suggestedIds);
    } else {
      assert b0 == a0 && b1 == a1 && b2 == a2 && b3 == [x] + a3;
      InsertBetween(x, a0 + a1 + a2, a3, suggestedIds);
    }
  }

  /** The sort puts the connectors in their key classes and keeps input order inside each class. */
  lemma {:induction false} SortIsGrouped(connectors: seq<Connector>, suggestedIds: seq<string>)
    ensures SortConnectors(connectors, suggestedIds) == Grouped(connectors, suggestedIds)
  {
    if connectors != [] {
      var x, rest := connectors[0], connectors[1..];
      assert [x] + rest == connectors;
      assert SortConnectors(connectors, suggestedIds) == Insert(x, SortConnectors(rest, suggestedIds), suggestedIds);
      SortIsGrouped(rest, suggestedIds);
      InsertGrouped(x, rest, suggestedIds);
    }
  }

  /** Joining two runs ordered by class, every class of the first at most every class of the second. */
  lemma SortedConcat(a: seq<Connector>, b: seq<Connector>, suggestedIds: seq<string>)
    requires SortedByRank(a, suggestedIds) && SortedByRank(b, suggestedIds)
    requires forall i, j :: 0 <= i < |a| && 0 <= j < |b| ==> Rank(a[i], suggestedIds) <= Rank(b[j], suggestedIds)
    ensures SortedByRank(a + b, suggestedIds)
  {
    forall i, j | 0 <= i < j < |a + b|
      ensures Rank((a + b)[i], suggestedIds) <= Rank((a + b)[j], suggestedIds)
    {
      if j < |a| {
        assert (a + b)[i] == a[i] && (a + b)[j] == a[j];
      } else if i < |a| {
        assert (a + b)[i] == a[i] && (a + b)[j] == b[j - |a|];
      } else {
        assert (a + b)[i] == b[i - |a|] && (a + b)[j] == b[j - |a|];
      }
    }
  }

  /** The grouped sequence is ordered by key class. */
  lemma GroupedSorted(t: seq<Connector>, suggestedIds: seq<string>)
    ensures SortedByRank(Grouped(t, suggestedIds), suggestedIds)
  {
    var a0, a1, a2, a3 := OfRank(t, suggestedIds, 0), OfRank(t, suggestedIds, 1),
      OfRank(t, suggestedIds, 2), OfRank(t, suggestedIds, 3);
    SortedConcat(a0, a1, suggestedIds);
    var b := a0 + a1;
    assert forall i :: 0 <= i < |b| ==> Rank(b[i], suggestedIds) <= 1 by {
      forall i | 0 <= i < |b| ensures Rank(b[i], suggestedIds) <= 1 {
        if i < |a0| { assert b[i] == a0[i]; } else { assert b[i] == a1[i - |a0|]; }
      }
    }
    SortedConcat(b, a2, suggestedIds);
    var c := b + a2;
    assert forall i :: 0 <= i < |c| ==> Rank(c[i], suggestedIds) <= 2 by {
      forall i | 0 <= i < |c| ensures Rank(c[i], suggestedIds) <= 2 {
        if i < |b| { assert c[i] == b[i]; } else { assert c[i] == a2[i - |b|]; }
      }
    }
    SortedConcat(c, a3, suggestedIds);
  }

  /** Taking one class of a concatenation takes it from each part. */
  lemma {:induction false} OfRankConcat(a: seq<Connector>, b: seq<Connector>, suggestedIds: seq<string>, k: nat)
    ensures OfRank(a + b, suggestedIds, k) == OfRank(a, suggestedIds, k) + OfRank(b, suggestedIds, k)
  {
    if a == [] {
      assert a + b == b;
    } else {
      assert (a + b)[0] == a[0];
      assert (a + b)[1..] == a[1..] + b;
      OfRankConcat(a[1..], b, suggestedIds, k);
    }
  }

  /** Taking class `k` of a run that is all of class `j`: the run itself when `j == k`, else nothing. */
  lemma {:induction false} OfRankUniform(a: seq<Connector>, suggestedIds: seq<string>, j: nat, k: nat)
    requires forall i :: 0 <= i < |a| ==> Rank(a[i], suggestedIds) == j
    ensures OfRank(a, suggestedIds, k) == if j == k then a else []
  {
    if a != [] {
      OfRankUniform(a[1..], suggestedIds, j, k);
      assert [a[0]] + a[1..] == a;
    }
  }

  /** Class `k` of the grouped sequence is class `k` of the input. */
  lemma GroupedClass(t: seq<Connector>, suggestedIds: seq<string>, k: nat)
    ensures OfRank(Grouped(t, suggestedIds), suggestedIds, k) == OfRank(t, suggestedIds, k)
  {
    var a0, a1, a2, a3 := OfRank(t, suggestedIds, 0), OfRank(t, suggestedIds, 1),
      OfRank(t, suggestedIds, 2), OfRank(t, suggestedIds, 3);
    OfRankConcat(a0 + a1 + a2, a3, suggestedIds, k);
    OfRankConcat(a0 + a1, a2, suggestedIds, k);
    OfRankConcat(a0, a1, suggestedIds, k);
    OfRankUniform(a0, suggestedIds, 0, k);
    OfRankUniform(a1, suggestedIds, 1, k);
    OfRankUniform(a2, suggestedIds, 2, k);
    OfRankUniform(a3, suggestedIds, 3, k);
    if k >= 4 {
      NoConnectorOfRank(t, suggestedIds, k);
    }
  }

  /** No connector has a class of 4 or more. */
  lemma {:induction false} NoConnectorOfRank(t: seq<Connector>, suggestedIds: seq<string>, k: nat)
    requires k >= 4
    ensures OfRank(t, suggestedIds, k) == []
  {
    if t != [] {
      NoConnectorOfRank(t[1..], suggestedIds, k);
    }
  }

  /**
   * The sorted list: a permutation of the input; every suggested connector before every
   * other one; inside the suggested and the other connectors, the connected ones first;
   * and connectors of the same class in their input order.
   */
  lemma SortedConnectorsOrder(connectors: seq<Connector>, suggestedIds: seq<string>)
    ensures var r := SortConnectors(connectors, suggestedIds);
      && multiset(r) == multiset(connectors)
      && (forall i, j :: 0 <= i < j < |r| && IsSuggested(r[j], suggestedIds) ==> IsSuggested(r[i], suggestedIds))
      && (forall i, j ::
            0 <= i < j < |r| && IsSuggested(r[i], suggestedIds) == IsSuggested(r[j], suggestedIds) && r[j].isConnected
            ==> r[i].isConnected)
      && (forall k: nat :: OfRank(r, suggestedIds, k) == OfRank(connectors, suggestedIds, k))
  {
    var r := SortConnectors(connectors, suggestedIds);
    SortIsGrouped(connectors, suggestedIds);
    GroupedSorted(connectors, suggestedIds);
    forall k: nat ensures OfRank(r, suggestedIds, k) == OfRank(connectors, suggestedIds, k) {
      GroupedClass(connectors, suggestedIds, k);
    }
    forall i, j | 0 <= i < j < |r| && IsSuggested(r[i], suggestedIds) == IsSuggested(r[j], suggestedIds)
        && r[j].isConnected
      ensures r[i].isConnected
    {
      assert Rank(r[i], suggestedIds) <= Rank(r[j], suggestedIds);
    }
  }

  // ---------------------------------------------------------------------------
  // Items

  /** What one `ConnectorItem` renders. */
  datatype ItemView = ItemView(
    isSelected: bool,
    disabled: bool,
    showSuggestedBadge: bool,
    showNotConnected: bool,
    showIntegrationPrompt: bool)

  /**
   * The item for a connector: the suggested badge on a suggested connected connector, the
   * integration prompt on a suggested one that is not connected, "Not connected" on one that
   * is neither; never two of these at once, and none on a connected connector that is not
   * suggested. The button is disabled exactly when the connector is not connected.
   */
  function ViewItem(c: Connector, selectedIds: seq<string>, suggestedIds: seq<string>): (v: ItemView)
    ensures v.isSelected <==> c.id in selectedIds
    ensures v.disabled <==> !c.isConnected
    ensures v.showSuggestedBadge <==> IsSuggested(c, suggestedIds) && c.isConnected
    ensures v.showNotConnected <==> !IsSuggested(c, suggestedIds) && !c.isConnected
    ensures v.showIntegrationPrompt <==> IsSuggested(c, suggestedIds) && !c.isConnected
    ensures !(v.showSuggestedBadge && v.showNotConnected) && !(v.showSuggestedBadge && v.showIntegrationPrompt)
      && !(v.showNotConnected && v.showIntegrationPrompt)
    ensures !v.showSuggestedBadge && !v.showNotConnected && !v.showIntegrationPrompt
      <==> Rank(c, suggestedIds) == 2
  {
    var isSuggested := IsSuggested(c, suggestedIds);
    var showIntegrationPrompt := isSuggested && !c.isConnected;
    ItemView(
      c.id in selectedIds,
      !c.isConnected,
      isSuggested && c.isConnected,
      !c.isConnected && !showIntegrationPrompt,
      showIntegrationPrompt)
  }

  /** Clicking an item's main button: the id handed to `onToggle`, or none when it does nothing. */
  function ClickItem(c: Connector): (toggled: Option<string>)
    ensures toggled.Some? <==> c.isConnected
    ensures toggled.Some? ==> toggled.value == c.id
  {
    if c.isConnected then Some(c.id) else None
  }

  /** The button does something exactly when it is not rendered disabled. */
  lemma ClickMatchesDisabled(c: Connector, selectedIds: seq<string>, suggestedIds: seq<string>)
    ensures ClickItem(c).None? <==> ViewItem(c, selectedIds, suggestedIds).disabled
  {
  }

  /** Clicking the integration prompt: the id offered to `onIntegrate`, when the selector has one; it exists only while the prompt shows. */
  function ClickIntegrate(c: Connector, suggestedIds: seq<string>): (integrated: Option<string>)
    ensures integrated.Some? <==> IsSuggested(c, suggestedIds) && !c.isConnected
    ensures integrated.Some? ==> integrated.value == c.id
  {
    if IsSuggested(c, suggestedIds) && !c.isConnected then Some(c.id) else None
  }

  /** The whole selector: the "Based on your instruction" header and the items in sorted order. */
  datatype SelectorView = SelectorView(showHeader: bool, items: seq<ItemView>)

  /**
   * `ConnectorSelector`: the header shows exactly when there are suggestions, and item `i`
   * is the view of the `i`-th connector of the sorted list.
   */
  function ViewSelector(connectors: seq<Connector>, selectedIds: seq<string>, suggestedIds: seq<string>): (v: SelectorView)
    ensures v.showHeader <==> |suggestedIds| > 0
    ensures |v.items| == |connectors|
    ensures forall i :: 0 <= i < |v.items| ==>
      v.items[i] == ViewItem(SortConnectors(connectors, suggestedIds)[i], selectedIds, suggestedIds)
  {
    var sorted := SortConnectors(connectors, suggestedIds);
    assert |sorted| == |multiset(sorted)| == |multiset(connectors)| == |connectors|;
    SelectorView(|suggestedIds| > 0, seq(|sorted|, i requires 0 <= i < |sorted| => ViewItem(sorted[i], selectedIds, suggestedIds)))
  }
}

/**
 * The inventory-option grid (src/components/CampaignOptions.tsx): a fixed
 * catalog of nine channels and the click rule that toggles an id in the
 * current selection list.
 */
module CampaignOptions {

  /** One entry of the grid; the icon is rendering only and is not kept. */
  datatype CampaignOption = CampaignOption(id: string, caption: string)

  const Catalog: seq<CampaignOption> := [
    CampaignOption("onsite-banners", "Onsite Banners"),
    CampaignOption("paid-media", "Paid Media with Custom Audiences"),
    CampaignOption("crm", "CRM (Push, WhatsApp, SMS)"),
    CampaignOption("influencers", "Influencers"),
    CampaignOption("social-posts", "Social Posts"),
    CampaignOption("sponsored-product", "Sponsored Product"),
    CampaignOption("offline-activations", "Offline Activations"),
    CampaignOption("out-of-home", "Out-of-Home (Street clocks, bus shelters, subway)"),
    CampaignOption("special-actions", "Special Actions (Custom bags, etc.)")
  ]

  /** No value occurs twice in `s`. */
  predicate Distinct(s: seq<string>) {
    forall i, j :: 0 <= i < j < |s| ==> s[i] != s[j]
  }

  function CatalogIds(): seq<string> {
    seq(|Catalog|, i requires 0 <= i < |Catalog| => Catalog[i].id)
  }

  /** The catalog has nine entries with pairwise-distinct ids. */
  lemma CatalogIdsDistinct()
    ensures |Catalog| == 9 && |CatalogIds()| == 9
    ensures Distinct(CatalogIds())
  {
  }

  /** A grid card is drawn as selected iff its id is in the selection list. */
  predicate IsSelected(selected: seq<string>, optionId: string)
    ensures IsSelected(selected, optionId) <==> exists i :: 0 <= i < |selected| && selected[i] == optionId
  {
    optionId in selected
  }

  /** The grid's selection flags, one per catalog card, in catalog order. */
  function Cards(selected: seq<string>): (flags: seq<bool>)
    ensures |flags| == |Catalog|
    ensures forall k :: 0 <= k < |flags| ==> (flags[k] <==> IsSelected(selected, Catalog[k].id))
  {
    seq(|Catalog|, k requires 0 <= k < |Catalog| => IsSelected(selected, Catalog[k].id))
  }

  /** `selected.filter(id => id !== x)`: every occurrence of `x` dropped, the rest in order. */
  function RemoveAll(s: seq<string>, x: string): (r: seq<string>)
    ensures x !in r
    ensures forall y :: y != x ==> (y in r <==> y in s)
    ensures forall y :: y != x ==> multiset(r)[y] == multiset(s)[y]
    ensures |r| <= |s|
  {
    assert s != [] ==> s == [s[0]] + s[1..];
    if s == [] then []
    else if s[0] == x then RemoveAll(s[1..], x)
    else [s[0]] + RemoveAll(s[1..], x)
  }

  /** `toggleOption`: drop every occurrence of a selected id, append an unselected one. */
  function Toggle(selected: seq<string>, optionId: string): (r: seq<string>)
    ensures IsSelected(r, optionId) <==> !IsSelected(selected, optionId)
    ensures forall y :: y != optionId ==> (y in r <==> y in selected)
    ensures !IsSelected(selected, optionId) ==> r == selected + [optionId]
  {
    if optionId in selected then RemoveAll(selected, optionId) else selected + [optionId]
  }

  lemma {:induction false} RemoveAllAbsent(s: seq<string>, x: string)
    requires x !in s
    ensures RemoveAll(s, x) == s
  {
    if s != [] {
      RemoveAllAbsent(s[1..], x);
    }
  }

  lemma {:induction false} RemoveAllConcat(s: seq<string>, t: seq<string>, x: string)
    ensures RemoveAll(s + t, x) == RemoveAll(s, x) + RemoveAll(t, x)
  {
    if s == [] {
      assert s + t == t;
    } else {
      assert (s + t)[1..] == s[1..] + t;
      RemoveAllConcat(s[1..], t, x);
    }
  }

  lemma {:induction false} RemoveAllKeepsDistinct(s: seq<string>, x: string)
    requires Distinct(s)
    ensures Distinct(RemoveAll(s, x))
  {
    if s != [] {
      assert Distinct(s[1..]) by {
        forall i, j | 0 <= i < j < |s[1..]| ensures s[1..][i] != s[1..][j] {
          assert s[1..][i] == s[i + 1] && s[1..][j] == s[j + 1];
        }
      }
      RemoveAllKeepsDistinct(s[1..], x);
      if s[0] != x {
        var tail := RemoveAll(s[1..], x);
        assert s[0] !in s[1..];
        assert s[0] !in tail;
        forall i, j | 0 <= i < j < |[s[0]] + tail| ensures ([s[0]] + tail)[i] != ([s[0]] + tail)[j] {
          if i == 0 {
            assert ([s[0]] + tail)[j] == tail[j - 1];
          } else {
            assert ([s[0]] + tail)[i] == tail[i - 1] && ([s[0]] + tail)[j] == tail[j - 1];
          }
        }
      }
    }
  }

  /** Toggling an unselected id twice gives back exactly the original list. */
  lemma ToggleTwiceRestoresAbsent(selected: seq<string>, optionId: string)
    requires !IsSelected(selected, optionId)
    ensures Toggle(Toggle(selected, optionId), optionId) == selected
  {
    RemoveAllConcat(selected, [optionId], optionId);
    RemoveAllAbsent(selected, optionId);
    assert RemoveAll([optionId], optionId) == [];
  }

  /** Toggling any id twice gives back the original set of selected ids. */
  lemma ToggleTwiceRestoresSet(selected: seq<string>, optionId: string)
    ensures forall y :: IsSelected(Toggle(Toggle(selected, optionId), optionId), y) <==> IsSelected(selected, y)
  {
  }

  /** A duplicate-free selection stays duplicate-free under toggling. */
  lemma ToggleKeepsDistinct(selected: seq<string>, optionId: string)
    requires Distinct(selected)
    ensures Distinct(Toggle(selected, optionId))
  {
    if optionId in selected {
      RemoveAllKeepsDistinct(selected, optionId);
    } else {
      var r := selected + [optionId];
      forall i, j | 0 <= i < j < |r| ensures r[i] != r[j] {
        if j == |selected| {
          assert r[i] == selected[i];
        } else {
          assert r[i] == selected[i] && r[j] == selected[j];
        }
      }
    }
  }

  /**
   * The ids other than the toggled one keep their membership, multiplicity
   * and relative order: with the toggled id struck out, the list is unchanged.
   */
  lemma ToggleKeepsOthersInOrder(selected: seq<string>, optionId: string)
    ensures RemoveAll(Toggle(selected, optionId), optionId) == RemoveAll(selected, optionId)
  {
    if optionId in selected {
      RemoveAllAbsent(RemoveAll(selected, optionId), optionId);
    } else {
      RemoveAllConcat(selected, [optionId], optionId);
      assert RemoveAll([optionId], optionId) == [];
      assert RemoveAll(selected, optionId) + [] == RemoveAll(selected, optionId);
    }
  }

  /** Clicking card `k` flips that card's flag and leaves every other card's flag as it was. */
  lemma ClickFlipsOneCard(selected: seq<string>, k: nat)
    requires k < |Catalog|
    ensures var before, after := Cards(selected), Cards(Toggle(selected, Catalog[k].id));
      && after[k] == !before[k]
      && forall j :: 0 <= j < |Catalog| && j != k ==> after[j] == before[j]
  {
    CatalogIdsDistinct();
    assert forall j :: 0 <= j < |Catalog| ==> CatalogIds()[j] == Catalog[j].id;
  }
}

/** Identity of fetched items, the new-key diff, the saturation warning
    and the last-write-wins merge of main.py (lines 45-58). Everything here
    is a pure function of its inputs. */
module FeedMerge {

  /** The fixed host every item key starts with. */
  const Host := "https://www.reddit.com"

  /** The upstream feed returns at most this many items, so a diff this
      large means older saved items may have been missed. */
  const SaturationLimit := 1000

  /** One entry of `data.children` of the fetched feed: its permalink and
      its `data` object, which the store keeps as an opaque payload. */
  datatype Child<P> = Child(permalink: string, data: P)

  /** The key under which an item is stored: the host followed by the
      permalink, nothing added and nothing removed. */
  function ItemKey(permalink: string): string
  {
    Host + permalink
  }

  /** A key is the host followed by exactly the permalink. */
  lemma ItemKeyShape(permalink: string)
    ensures Host <= ItemKey(permalink) && ItemKey(permalink)[|Host|..] == permalink
  {
  }

  /** Distinct permalinks give distinct keys. */
  lemma ItemKeyInjective(p: string, q: string)
    ensures ItemKey(p) == ItemKey(q) ==> p == q
  {
    ItemKeyShape(p);
    ItemKeyShape(q);
  }

  /** The dictionary comprehension over the fetched children: children are
      visited in order, so a later child with the same permalink overwrites
      an earlier one. */
  function FetchedItems<P>(children: seq<Child<P>>): (m: map<string, P>)
    ensures m.Keys == set i | 0 <= i < |children| :: ItemKey(children[i].permalink)
  {
    if children == [] then map[]
    else
      var last := children[|children| - 1];
      FetchedItems(children[..|children| - 1])[ItemKey(last.permalink) := last.data]
  }

  /** The payload kept for a permalink is that of the LAST child carrying it. */
  lemma {:induction false} FetchedLastWins<P>(children: seq<Child<P>>, i: nat)
    requires i < |children|
    requires forall j :: i < j < |children| ==> children[j].permalink != children[i].permalink
    ensures FetchedItems(children)[ItemKey(children[i].permalink)] == children[i].data
  {
    var n := |children| - 1;
    var init, last := children[..n], children[n];
    assert FetchedItems(children) == FetchedItems(init)[ItemKey(last.permalink) := last.data];
    if i < n {
      assert init[i] == children[i];
      forall j | i < j < |init| ensures init[j].permalink != init[i].permalink {
        assert init[j] == children[j];
      }
      FetchedLastWins(init, i);
      ItemKeyInjective(last.permalink, children[i].permalink);
    }
  }

  /** With no repeated permalink, every child yields its own entry. */
  lemma {:induction false} FetchedDistinctSize<P>(children: seq<Child<P>>)
    requires forall i, j :: 0 <= i < j < |children| ==> children[i].permalink != children[j].permalink
    ensures |FetchedItems(children)| == |children|
  {
    if children != [] {
      var n := |children| - 1;
      var init := children[..n];
      FetchedDistinctSize(init);
      var key := ItemKey(children[n].permalink);
      if key in FetchedItems(init) {
        var i :| 0 <= i < n && ItemKey(init[i].permalink) == key;
        ItemKeyInjective(init[i].permalink, children[n].permalink);
        assert false;
      }
    }
  }

  /** `keysNew - keys`: the fetched keys not already stored. */
  function NewKeys<P>(fetched: map<string, P>, existing: map<string, P>): (diff: set<string>)
    ensures diff <= fetched.Keys
    ensures diff !! existing.Keys
    ensures fetched.Keys <= existing.Keys + diff
  {
    fetched.Keys - existing.Keys
  }

  /** Whether the "more than 1000 saved posts" warning is emitted. */
  predicate Saturated(newCount: nat)
  {
    newCount >= SaturationLimit
  }

  /** 999 new items give no warning, 1000 give one. */
  lemma SaturationBoundary()
    ensures !Saturated(999) && Saturated(1000)
  {
  }

  /** `saved.update(savedNew)`: every fetched key takes its fetched payload,
      every other stored key keeps its payload, and no key is dropped. */
  function Merged<P>(existing: map<string, P>, fetched: map<string, P>): (m: map<string, P>)
    ensures m.Keys == existing.Keys + fetched.Keys
    ensures forall k :: k in fetched ==> m[k] == fetched[k]
    ensures forall k :: k in existing && k !in fetched ==> m[k] == existing[k]
  {
    existing + fetched
  }

  /** The reported total is the old size plus the number of new keys. */
  lemma MergedSize<P>(existing: map<string, P>, fetched: map<string, P>)
    ensures |Merged(existing, fetched)| == |existing| + |NewKeys(fetched, existing)|
  {
  }

  /** Merging the same fetch twice gives the same collection as once. */
  lemma MergedIdempotent<P>(existing: map<string, P>, fetched: map<string, P>)
    ensures Merged(Merged(existing, fetched), fetched) == Merged(existing, fetched)
  {
  }

  /** The worked example: a store holding /a and a fetch of /a and /b. */
  lemma MergeExample<P>(oldA: P, newA: P, newB: P)
    ensures var existing := map[ItemKey("/a") := oldA];
            var fetched := FetchedItems([Child("/a", newA), Child("/b", newB)]);
            && NewKeys(fetched, existing) == {ItemKey("/b")}
            && Merged(existing, fetched) == map[ItemKey("/a") := newA, ItemKey("/b") := newB]
  {
    ItemKeyInjective("/a", "/b");
  }
}

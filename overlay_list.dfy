/** The list overlay's item buffer: pending items are moved into a bounded
    cache that keeps only the newest `TotalToShow` of them. */
module OverlayList {
  import opened Wrappers

  /** The list alignment; `NoAlignment` is the source's `None` (100). */
  datatype Alignment = Top | Center | Bottom | NoAlignment

  /** One list entry. `userId` 0 plays the role of `Guid.Empty`; `html` is
      `None` where the source leaves it null. */
  datatype ListItem = ListItem(
    id: string,
    userId: nat,
    position: int,
    add: bool,
    remove: bool,
    templateReplacements: map<string, string>,
    html: Option<string>,
    hash: string)

  /** `CreateAddItem`: `user` is the user's ID, `None` for a null user. */
  function CreateAddItem(id: string, user: Option<nat>, position: int, html: string): (item: ListItem)
    ensures item.add && !item.remove
    ensures item.id == id && item.position == position && item.html == Some(html)
    ensures item.userId == (if user.Some? then user.value else 0)
    ensures item.templateReplacements == map[] && item.hash == ""
  {
    ListItem(id, if user.Some? then user.value else 0, position, true, false, map[], Some(html), "")
  }

  /** `CreateRemoveItem`: only the ID is carried. */
  function CreateRemoveItem(id: string): (item: ListItem)
    ensures item.remove && !item.add
    ensures item.id == id && item.userId == 0 && item.position == 0 && item.html.None?
    ensures item.templateReplacements == map[] && item.hash == ""
  {
    ListItem(id, 0, 0, false, true, map[], None, "")
  }

  /** The last `n` elements of `s`, or all of `s` when it has fewer. */
  function KeepLast<T>(s: seq<T>, n: nat): (r: seq<T>)
    ensures |r| == if |s| <= n then |s| else n
    ensures r == s[|s| - |r|..]
  {
    if |s| <= n then s else s[|s| - n..]
  }

  /** The cache behaves as one bounded FIFO: trimming after each batch keeps
      the same newest `n` items as trimming once after all of them. */
  lemma KeepLastOfAppend<T>(a: seq<T>, b: seq<T>, n: nat)
    ensures KeepLast(KeepLast(a, n) + b, n) == KeepLast(a + b, n)
  {
    var k := KeepLast(a, n);
    assert a == a[..|a| - |k|] + k;
    assert a + b == a[..|a| - |k|] + (k + b);
    if |k + b| > n {
      assert (k + b)[|k + b| - n..] == (a + b)[|a + b| - n..];
    } else {
      assert |a + b| > n ==> |k| == n;
    }
  }

  class ListOverlay {
    var totalToShow: int
    var alignment: Alignment
    var items: seq<ListItem>
    var cachedItems: seq<ListItem>

    /** The parameterless constructor: aligned to the top. */
    constructor Default()
      ensures alignment == Top && totalToShow == 0 && items == [] && cachedItems == []
    {
      totalToShow, alignment, items, cachedItems := 0, Top, [], [];
    }

    constructor (totalToShow: int, alignment: Alignment)
      ensures this.totalToShow == totalToShow && this.alignment == alignment
      ensures items == [] && cachedItems == []
    {
      this.totalToShow, this.alignment, items, cachedItems := totalToShow, alignment, [], [];
    }

    predicate ForceTopAlign()
      reads this
    {
      alignment == Top
    }

    predicate ForceCenterAlign()
      reads this
    {
      alignment == Center
    }

    predicate ForceBottomAlign()
      reads this
    {
      alignment == Bottom
    }

    /** The list part of `GetProcessedItem`. The pending items join the cache,
        the oldest cached items are dropped until at most `TotalToShow` remain,
        and the pending list is emptied. With a negative `TotalToShow` the loop
        empties the cache and `RemoveAt(0)` then throws: `completed` is false,
        the cache is empty and the pending items stay. */
    method GetProcessedItem() returns (completed: bool)
      modifies this`items, this`cachedItems
      ensures completed <==> totalToShow >= 0
      ensures completed ==> items == [] && cachedItems == KeepLast(old(cachedItems) + old(items), totalToShow)
      ensures !completed ==> items == old(items) && cachedItems == []
    {
      cachedItems := cachedItems + items;
      ghost var all := cachedItems;
      while |cachedItems| > totalToShow
        invariant items == old(items)
        invariant cachedItems == all[|all| - |cachedItems|..]
        invariant totalToShow >= 0 ==> |cachedItems| >= if |all| <= totalToShow then |all| else totalToShow
        decreases |cachedItems|
      {
        if cachedItems == [] {
          return false;
        }
        cachedItems := cachedItems[1..];
      }
      items := [];
      return true;
    }

    /** `LoadCachedData`: the cache becomes the pending list and is emptied. */
    method LoadCachedData()
      modifies this`items, this`cachedItems
      ensures items == old(cachedItems) && cachedItems == []
    {
      items := [];
      items := items + cachedItems;
      cachedItems := [];
    }

    /** `Disable`: both lists are emptied. */
    method Disable()
      modifies this`items, this`cachedItems
      ensures items == [] && cachedItems == []
    {
      items := [];
      cachedItems := [];
    }
  }

  /** At most one of the `Force*Align` flags holds, and none for `NoAlignment`. */
  lemma AtMostOneAlignment(o: ListOverlay)
    ensures !(o.ForceTopAlign() && o.ForceCenterAlign())
    ensures !(o.ForceTopAlign() && o.ForceBottomAlign())
    ensures !(o.ForceCenterAlign() && o.ForceBottomAlign())
    ensures o.alignment == NoAlignment <==> !o.ForceTopAlign() && !o.ForceCenterAlign() && !o.ForceBottomAlign()
  {
  }
}

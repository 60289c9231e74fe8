/** The renderer's clipboard history (src/App.tsx): a most-recent-first list of
    records that changes only through pure updaters built from `map`, `filter`,
    `slice` and spread. */
module History {
  import opened Seqs
  import opened Text

  /** One recorded clipboard capture. `id` comes from `Date.now()` and is not
      guaranteed to be unique; `timestamp` is an ISO date string. */
  datatype ClipboardItem = ClipboardItem(id: int, content: string, timestamp: string, pinned: bool)

  /** The history keeps at most this many items. */
  const MaxItems: nat := 100

  function Min(a: int, b: int): int { if a <= b then a else b }

  /** The first `n` elements of `s`, or all of `s` when it is shorter (`slice(0, n)`). */
  function Take<T>(s: seq<T>, n: nat): (r: seq<T>)
    ensures |r| == Min(|s|, n)
    ensures r == s[..|r|]
  {
    if |s| <= n then s else s[..n]
  }

  /** The updater run on each `clipboard-updated` event: the new, unpinned item is
      put in front of the previous items and the result is cut to `MaxItems`. */
  function Insert(items: seq<ClipboardItem>, id: int, content: string, timestamp: string): (r: seq<ClipboardItem>)
    ensures |r| == Min(|items| + 1, MaxItems)
    ensures r[0] == ClipboardItem(id, content, timestamp, false)
    ensures r[1..] == items[..Min(|items|, MaxItems - 1)]
  {
    Take([ClipboardItem(id, content, timestamp, false)] + items, MaxItems)
  }

  /** The history never exceeds its bound after an insert, whatever it held before. */
  lemma InsertBounded(items: seq<ClipboardItem>, id: int, content: string, timestamp: string)
    ensures 1 <= |Insert(items, id, content, timestamp)| <= MaxItems
    ensures |items| < MaxItems ==> |Insert(items, id, content, timestamp)| == |items| + 1
  {
  }

  /** On a full history the oldest item is evicted, pinned or not: the result
      is the new item followed by all but the last of the old items. */
  lemma InsertEvictsOldest(items: seq<ClipboardItem>, id: int, content: string, timestamp: string)
    requires |items| == MaxItems
    ensures Insert(items, id, content, timestamp)
            == [ClipboardItem(id, content, timestamp, false)] + items[..MaxItems - 1]
    ensures multiset(Insert(items, id, content, timestamp))
            == multiset(items) - multiset{items[MaxItems - 1]} + multiset{ClipboardItem(id, content, timestamp, false)}
  {
    var r := Insert(items, id, content, timestamp);
    assert r == [r[0]] + r[1..];
    assert items == items[..MaxItems - 1] + [items[MaxItems - 1]];
    assert multiset(items) == multiset(items[..MaxItems - 1]) + multiset{items[MaxItems - 1]};
  }

  /** Number of items whose content is `c`. */
  function CountContent(items: seq<ClipboardItem>, c: string): nat
  {
    if items == [] then 0
    else (if items[0].content == c then 1 else 0) + CountContent(items[1..], c)
  }

  /** Insert does no deduplication: inserting the same content twice yields two
      entries with that content at the front. */
  lemma {:induction false} InsertNoDedup(items: seq<ClipboardItem>, id1: int, id2: int, c: string, t1: string, t2: string)
    ensures var r := Insert(Insert(items, id1, c, t1), id2, c, t2);
            |r| >= 2 && r[0].content == c && r[1].content == c && CountContent(r, c) >= 2
  {
    var once := Insert(items, id1, c, t1);
    var r := Insert(once, id2, c, t2);
    assert r[1] == once[0];
    assert r[1..][1..] == r[2..];
  }

  /** The item `it` with its pin flipped when its id is `id`. */
  function FlipIfMatch(it: ClipboardItem, id: int): (r: ClipboardItem)
    ensures r.id == it.id && r.content == it.content && r.timestamp == it.timestamp
    ensures r.pinned <==> (it.pinned <==> it.id != id)
  {
    if it.id == id then it.(pinned := !it.pinned) else it
  }

  /** `handlePin(id)`: an element-wise map that flips `pinned` on the items carrying `id`. */
  function TogglePin(items: seq<ClipboardItem>, id: int): (r: seq<ClipboardItem>)
    ensures |r| == |items|
    ensures forall i :: 0 <= i < |r| ==>
              && r[i].id == items[i].id
              && r[i].content == items[i].content
              && r[i].timestamp == items[i].timestamp
              && r[i].pinned == (items[i].pinned != (items[i].id == id))
  {
    if items == [] then [] else [FlipIfMatch(items[0], id)] + TogglePin(items[1..], id)
  }

  /** Pinning twice with the same id restores the list. */
  lemma TogglePinTwice(items: seq<ClipboardItem>, id: int)
    ensures TogglePin(TogglePin(items, id), id) == items
  {
  }

  /** Pinning an id that no item carries changes nothing. */
  lemma TogglePinAbsent(items: seq<ClipboardItem>, id: int)
    requires forall i :: 0 <= i < |items| ==> items[i].id != id
    ensures TogglePin(items, id) == items
  {
  }

  /** `handleDelete(id)`: keeps the items whose id differs from `id`. */
  function Delete(items: seq<ClipboardItem>, id: int): (r: seq<ClipboardItem>)
    ensures forall x :: x in r <==> x in items && x.id != id
    ensures forall x :: multiset(r)[x] == if x.id != id then multiset(items)[x] else 0
    ensures IsSubsequence(r, items)
  {
    Filter(items, (it: ClipboardItem) => it.id != id)
  }

  /** Deleting an id that no item carries changes nothing. */
  lemma DeleteAbsent(items: seq<ClipboardItem>, id: int)
    requires forall x :: x in items ==> x.id != id
    ensures Delete(items, id) == items
  {
    FilterAllKept(items, (it: ClipboardItem) => it.id != id);
  }

  /** `handleClearHistory`, once the user has confirmed: keeps the pinned items. */
  function ClearUnpinned(items: seq<ClipboardItem>): (r: seq<ClipboardItem>)
    ensures forall x :: x in r <==> x in items && x.pinned
    ensures forall x :: multiset(r)[x] == if x.pinned then multiset(items)[x] else 0
    ensures IsSubsequence(r, items)
  {
    Filter(items, (it: ClipboardItem) => it.pinned)
  }

  /** Clearing twice is clearing once. */
  lemma ClearUnpinnedIdempotent(items: seq<ClipboardItem>)
    ensures ClearUnpinned(ClearUnpinned(items)) == ClearUnpinned(items)
  {
    FilterIdempotent(items, (it: ClipboardItem) => it.pinned);
  }

  /** Whether `item` is shown for `term`: the lower-cased term occurs somewhere
      in the lower-cased content. */
  function Matches(item: ClipboardItem, term: string): (r: bool)
    ensures r <==> exists i :: OccursAt(Lower(item.content), Lower(term), i)
  {
    IncludesIffOccurs(Lower(item.content), Lower(term));
    Includes(Lower(item.content), Lower(term))
  }

  /** `filteredItems`: the items whose lower-cased content includes the lower-cased search term. */
  function Search(items: seq<ClipboardItem>, term: string): (r: seq<ClipboardItem>)
    ensures forall x :: x in r <==> x in items && (exists i :: OccursAt(Lower(x.content), Lower(term), i))
    ensures forall x :: multiset(r)[x] == if Matches(x, term) then multiset(items)[x] else 0
    ensures IsSubsequence(r, items)
  {
    Filter(items, (it: ClipboardItem) => Matches(it, term))
  }

  /** An empty search term shows the whole history. */
  lemma SearchEmptyTerm(items: seq<ClipboardItem>)
    ensures Search(items, "") == items
  {
    FilterAllKept(items, (it: ClipboardItem) => Matches(it, ""));
  }

  /** The search ignores ASCII case in the term. */
  lemma SearchCaseInsensitive(items: seq<ClipboardItem>, term: string)
    ensures Search(items, Lower(term)) == Search(items, term)
  {
    LowerIdempotent(term);
    FilterCongruent(items, (it: ClipboardItem) => Matches(it, Lower(term)), (it: ClipboardItem) => Matches(it, term));
  }
}

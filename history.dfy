/**
 * The generation history of App.tsx: a most-recent-first list of records,
 * capped at `MaxHistoryItems`, backed by the single storage slot
 * 'nexus-future-history'.
 *
 * `Store` is the pair (in-memory history, slot content); `LoadStep`,
 * `AppendStep` and `ClearStep` say what the mount effect,
 * `handleNewGeneration` and `handleClearHistory` make of it, and the class
 * `HistoryStore` performs them in place. The outcomes of the browser services
 * involved (`setItem`, `removeItem`) are parameters, and so is the
 * thumbnailer, as a function applied to each image of the record.
 */
module History {
  import opened Outcome
  import opened Thumbnailer

  /**
   * A generation record (`HistoryItem`); images are data-URL strings. The
   * original image may be null: the editor fills it with `originalImageUrl!`,
   * which is null until the file reader has produced a data URL, and null
   * again after a failed read.
   */
  datatype Item = Item(id: string, originalImage: Option<string>, prompt: string, generatedImage: string, timestamp: string)

  /** `resizeImage` as a function of the source it is given (its outcome is described by `ResizeImage`). */
  type Resizer = string -> Result<Thumbnail, ThumbError>

  /**
   * The thumbnail of an image source. A null source is assigned to `img.src`
   * as the relative URL "null", which does not load.
   */
  function ThumbnailOf(resize: Resizer, src: Option<string>): Result<Thumbnail, ThumbError>
  {
    match src
    case None => Err(ImageLoadError)
    case Some(url) => resize(url)
  }

  /** Both thumbnails of a record resolve, so that `Promise.all` resolves. */
  predicate ThumbnailsResolve(item: Item, resize: Resizer)
  {
    ThumbnailOf(resize, item.originalImage).Ok? && resize(item.generatedImage).Ok?
  }

  /** The cap on the history, applied on load and after every append. */
  const MaxHistoryItems: nat := 15

  /** What `localStorage.getItem('nexus-future-history')` yields, seen through `JSON.parse`. */
  datatype Slot =
    | Absent                     // no value stored
    | Blank                      // the empty string: falsy, so loading skips it
    | Records(items: seq<Item>)  // a serialised array of records
    | Corrupt                    // a value on which `JSON.parse` or `slice` throws

  /** The in-memory history together with the content of its slot. */
  datatype Store = Store(history: seq<Item>, slot: Slot)

  /** `h.slice(0, MAX_HISTORY_ITEMS)`: the newest records, at most the cap of them. */
  function Truncate(h: seq<Item>): (r: seq<Item>)
    ensures |r| == if |h| < MaxHistoryItems then |h| else MaxHistoryItems
    ensures r == h[..|r|]
  {
    if |h| <= MaxHistoryItems then h else h[..MaxHistoryItems]
  }

  /**
   * The state updater `[item, ...prev].slice(0, MAX_HISTORY_ITEMS)`: the new
   * record comes first, the older ones follow in their order, and only the
   * oldest record is dropped when the history was already full.
   */
  function Prepend(item: Item, h: seq<Item>): (r: seq<Item>)
    ensures |r| == if |h| < MaxHistoryItems then |h| + 1 else MaxHistoryItems
    ensures r[0] == item
    ensures r[1..] == h[..|r| - 1]
  {
    var r := Truncate([item] + h);
    assert r[1..] == ([item] + h)[1..|r|];
    r
  }

  /** The record kept for storage: both images replaced by their thumbnails, all else as given. */
  function Slim(item: Item, thumbOriginal: string, thumbGenerated: string): (r: Item)
    ensures r.id == item.id && r.prompt == item.prompt && r.timestamp == item.timestamp
    ensures r.originalImage == Some(thumbOriginal) && r.generatedImage == thumbGenerated
  {
    item.(originalImage := Some(thumbOriginal), generatedImage := thumbGenerated)
  }

  /**
   * The mount effect. A stored list replaces the history, cut to the cap; an
   * absent or empty value changes nothing; a corrupt value leaves the history
   * alone and is removed when `removeItem` succeeds (`removeOk`).
   */
  function LoadStep(s: Store, removeOk: bool): Store
  {
    match s.slot
    case Absent => s
    case Blank => s
    case Records(items) => s.(history := Truncate(items))
    case Corrupt => if removeOk then s.(slot := Absent) else s
  }

  /**
   * `handleNewGeneration`: each image of the record is thumbnailed; the
   * append is abandoned when either thumbnail is rejected; otherwise the
   * slimmed record is prepended and the new history written to the slot when
   * `setItem` succeeds (`writeOk`).
   */
  function AppendStep(s: Store, item: Item, resize: Resizer, writeOk: bool): Store
  {
    var thumbOriginal := ThumbnailOf(resize, item.originalImage);
    var thumbGenerated := resize(item.generatedImage);
    if thumbOriginal.Err? || thumbGenerated.Err? then s
    else
      var h := Prepend(Slim(item, thumbOriginal.value.dataUrl, thumbGenerated.value.dataUrl), s.history);
      Store(h, if writeOk then Records(h) else s.slot)
  }

  /** `handleClearHistory`: the history empties; the slot goes when `removeItem` succeeds. */
  function ClearStep(s: Store, removeOk: bool): Store
  {
    Store([], if removeOk then Absent else s.slot)
  }

  /** The history is within the cap. */
  predicate Bounded(s: Store)
  {
    |s.history| <= MaxHistoryItems
  }

  /** The slot holds exactly the in-memory history. */
  predicate Synced(s: Store)
  {
    s.slot == Records(s.history)
  }

  /** Every step keeps the history within the cap, whatever the outcomes of the browser services. */
  lemma StepsKeepBound(s: Store, item: Item, resize: Resizer, writeOk: bool, removeOk: bool)
    requires Bounded(s)
    ensures Bounded(LoadStep(s, removeOk))
    ensures Bounded(AppendStep(s, item, resize, writeOk))
    ensures Bounded(ClearStep(s, removeOk))
  {
  }

  /** Loading, case by case on what the slot holds. */
  lemma LoadOutcomes(s: Store, removeOk: bool)
    ensures var t := LoadStep(s, removeOk);
      && (s.slot.Absent? || s.slot.Blank? ==> t == s)
      && (s.slot.Records? ==>
            t.slot == s.slot
            && |t.history| == (if |s.slot.items| < MaxHistoryItems then |s.slot.items| else MaxHistoryItems)
            && t.history == s.slot.items[..|t.history|])
      && (s.slot.Corrupt? ==> t.history == s.history && t.slot == (if removeOk then Absent else Corrupt))
  {
  }

  /**
   * A successful append puts the slimmed record at the head and keeps the
   * older records in order; each image of the stored record is the
   * thumbnail of that same image of the given record.
   */
  lemma AppendPrependsSlimmed(s: Store, item: Item, resize: Resizer, writeOk: bool)
    requires ThumbnailsResolve(item, resize)
    ensures var t := AppendStep(s, item, resize, writeOk);
      && |t.history| == (if |s.history| < MaxHistoryItems then |s.history| + 1 else MaxHistoryItems)
      && t.history[0].id == item.id && t.history[0].prompt == item.prompt
      && t.history[0].timestamp == item.timestamp
      && item.originalImage.Some?
      && t.history[0].originalImage == Some(resize(item.originalImage.value).value.dataUrl)
      && t.history[0].generatedImage == resize(item.generatedImage).value.dataUrl
      && t.history[1..] == s.history[..|t.history| - 1]
  {
  }

  /** A rejected thumbnail abandons the whole append: neither history nor slot change. */
  lemma AppendAbandonedOnThumbnailFailure(s: Store, item: Item, resize: Resizer, writeOk: bool)
    requires !ThumbnailsResolve(item, resize)
    ensures AppendStep(s, item, resize, writeOk) == s
  {
  }

  /**
   * A record whose original image is null, whatever the thumbnailer, is
   * silently dropped: its thumbnail cannot load.
   */
  lemma NullOriginalNeverStored(s: Store, item: Item, resize: Resizer, writeOk: bool)
    requires item.originalImage.None?
    ensures AppendStep(s, item, resize, writeOk) == s
  {
  }

  /**
   * A successful write leaves the slot holding exactly the new history; a
   * failed one leaves the slot as it was and yields the same history.
   */
  lemma AppendPersistence(s: Store, item: Item, resize: Resizer)
    requires ThumbnailsResolve(item, resize)
    ensures Synced(AppendStep(s, item, resize, true))
    ensures AppendStep(s, item, resize, false).slot == s.slot
    ensures AppendStep(s, item, resize, false).history == AppendStep(s, item, resize, true).history
  {
  }

  /** Clearing empties the history; two clears are one clear whose removal succeeded if either did. */
  lemma ClearIdempotent(s: Store, removeOk: bool, again: bool)
    ensures ClearStep(s, removeOk).history == []
    ensures removeOk ==> ClearStep(s, removeOk).slot == Absent
    ensures ClearStep(ClearStep(s, removeOk), again) == ClearStep(s, removeOk || again)
    ensures ClearStep(ClearStep(s, removeOk), removeOk) == ClearStep(s, removeOk)
  {
  }

  /**
   * Round trip: when the slot holds the history (every append since the last
   * load or clear was written), loading it into a fresh, empty history at the
   * next start gives back that same history.
   */
  lemma ReloadRestoresHistory(s: Store, removeOk: bool)
    requires Bounded(s) && Synced(s)
    ensures LoadStep(Store([], s.slot), removeOk) == s
  {
  }

  /** Appends whose writes succeed, and abandoned appends, keep the slot in step with the history. */
  lemma AppendKeepsSynced(s: Store, item: Item, resize: Resizer)
    requires Synced(s)
    ensures Synced(AppendStep(s, item, resize, true))
  {
  }

  /** After a clear whose removal succeeded, the next start loads an empty history. */
  lemma ReloadAfterClear(s: Store, removeOk: bool)
    ensures LoadStep(Store([], ClearStep(s, true).slot), removeOk).history == []
  {
  }

  /** The sequence `s` in reverse order. */
  function Reversed(s: seq<Item>): (r: seq<Item>)
    ensures |r| == |s|
    ensures forall k :: 0 <= k < |s| ==> r[k] == s[|s| - 1 - k]
  {
    if s == [] then [] else [s[|s| - 1]] + Reversed(s[..|s| - 1])
  }

  /** The history after the records `items` are prepended one after another, first to last. */
  function PrependAll(h: seq<Item>, items: seq<Item>): seq<Item>
  {
    if items == [] then h else Prepend(items[|items| - 1], PrependAll(h, items[..|items| - 1]))
  }

  /** Cutting the tail early does not change what a later cut keeps. */
  lemma TruncateAbsorbs(item: Item, h: seq<Item>)
    ensures Truncate([item] + Truncate(h)) == Truncate([item] + h)
  {
  }

  /**
   * Any run of successful appends onto a history within the cap: the history
   * holds the appended records newest first, followed by the previous
   * history, cut to the cap.
   */
  lemma {:induction false} PrependAllNewestFirst(h: seq<Item>, items: seq<Item>)
    requires |h| <= MaxHistoryItems
    ensures PrependAll(h, items) == Truncate(Reversed(items) + h)
  {
    if items == [] {
      assert Reversed(items) + h == h;
    } else {
      var n := |items|;
      var init := items[..n - 1];
      PrependAllNewestFirst(h, init);
      assert Reversed(items) == [items[n - 1]] + Reversed(init);
      TruncateAbsorbs(items[n - 1], Reversed(init) + h);
      assert [items[n - 1]] + (Reversed(init) + h) == Reversed(items) + h;
    }
  }

  /**
   * Starting from an empty history, at least `MaxHistoryItems` appends leave
   * exactly the last `MaxHistoryItems` records, newest first.
   */
  lemma FullAfterEnoughAppends(items: seq<Item>)
    requires |items| >= MaxHistoryItems
    ensures |PrependAll([], items)| == MaxHistoryItems
    ensures forall k :: 0 <= k < MaxHistoryItems ==> PrependAll([], items)[k] == items[|items| - 1 - k]
  {
    PrependAllNewestFirst([], items);
    assert Reversed(items) + [] == Reversed(items);
  }

  /**
   * Sixteen appends of records with distinct ids onto an empty history: the
   * history holds fifteen records, the sixteenth at its head, and the first
   * record is gone.
   */
  lemma SixteenAppends(items: seq<Item>)
    requires |items| == 16
    requires forall i, j :: 0 <= i < j < |items| ==> items[i].id != items[j].id
    ensures |PrependAll([], items)| == 15
    ensures PrependAll([], items)[0] == items[15]
    ensures forall k :: 0 <= k < 15 ==> PrependAll([], items)[k].id != items[0].id
  {
    FullAfterEnoughAppends(items);
  }

  /**
   * The `history` state of the App component together with the storage slot
   * it is persisted in, updated in place by the three handlers.
   */
  class HistoryStore {
    var history: seq<Item>
    var slot: Slot

    ghost predicate Valid()
      reads this
    {
      Bounded(State())
    }

    function State(): Store
      reads this
    {
      Store(history, slot)
    }

    /** Mounting: the history starts empty beside whatever the slot holds. */
    constructor (stored: Slot)
      ensures Valid()
      ensures history == [] && slot == stored
    {
      history := [];
      slot := stored;
    }

    /** The mount effect: read the slot, parse it, keep at most the cap; remove a corrupt value. */
    method Load(removeOk: bool)
      requires Valid()
      modifies this
      ensures Valid()
      ensures State() == LoadStep(old(State()), removeOk)
    {
      if slot.Absent? || slot.Blank? {
        return;
      }
      if slot.Corrupt? {
        // the parse failed; the removal's own failure is swallowed
        if removeOk {
          slot := Absent;
        }
        return;
      }
      var parsed := slot.items;
      history := if |parsed| <= MaxHistoryItems then parsed else parsed[..MaxHistoryItems];
    }

    /**
     * `handleNewGeneration`: thumbnail both images; with both resolved,
     * prepend the slimmed record, cut to the cap and try to write the new
     * history.
     */
    method Append(item: Item, resize: Resizer, writeOk: bool)
      requires Valid()
      modifies this
      ensures Valid()
      ensures State() == AppendStep(old(State()), item, resize, writeOk)
    {
      var thumbOriginal := ThumbnailOf(resize, item.originalImage);
      var thumbGenerated := resize(item.generatedImage);
      if thumbOriginal.Err? || thumbGenerated.Err? {
        // the item is not saved
        return;
      }
      var stored := item.(originalImage := Some(thumbOriginal.value.dataUrl),
                          generatedImage := thumbGenerated.value.dataUrl);
      var updated := [stored] + history;
      history := if |updated| <= MaxHistoryItems then updated else updated[..MaxHistoryItems];
      if writeOk {
        slot := Records(history);
      }
    }

    /** `handleClearHistory`: empty the history and try to remove the slot. */
    method Clear(removeOk: bool)
      requires Valid()
      modifies this
      ensures Valid()
      ensures State() == ClearStep(old(State()), removeOk)
    {
      history := [];
      if removeOk {
        slot := Absent;
      }
    }
  }
}

/** The polling source: it lists everything page by page, and tells its handlers what has changed since
    the last successful scan. */
module Polling {
  import opened Core

  datatype Item = Item(namespace: string, name: string, uid: string, version: string, body: string)

  datatype Entry = Entry(uid: string, version: string, object: Item)

  type Snapshot = map<string, Entry>

  /** A page of a list; an element without readable metadata is `None`. */
  datatype Page = Page(items: seq<Option<Item>>, more: bool)

  datatype Event =
    | OnAdd(key: string, current: Entry)
    | OnUpdate(key: string, previous: Entry, current: Entry)
    | OnDelete(key: string, previous: Entry)

  function KeyOf(i: Item): string {
    if i.namespace == "" then i.name else i.namespace + "/" + i.name
  }

  predicate Complete(i: Item) {
    i.name != "" && i.uid != "" && i.version != ""
  }

  function EntryOf(i: Item): Entry {
    Entry(i.uid, i.version, i)
  }

  // ----- what a list says -----

  /** The snapshot of a list; a list with an unreadable element or a repeated key has none. */
  function Collected(items: seq<Option<Item>>): Option<Snapshot> {
    if |items| == 0 then Some(map[])
    else
      var rest, last := Collected(items[..|items| - 1]), items[|items| - 1];
      if rest.None? || last.None? || !Complete(last.value) || KeyOf(last.value) in rest.value then None
      else Some(rest.value[KeyOf(last.value) := EntryOf(last.value)])
  }

  /** A snapshot holds exactly the listed items, each under its own key. */
  lemma {:induction false} CollectedIsList(items: seq<Option<Item>>)
    requires Collected(items).Some?
    ensures |Collected(items).value| == |items|
    ensures forall i :: 0 <= i < |items| ==>
      items[i].Some? && Complete(items[i].value) && KeyOf(items[i].value) in Collected(items).value &&
      Collected(items).value[KeyOf(items[i].value)] == EntryOf(items[i].value)
    ensures forall i, k :: 0 <= i < k < |items| ==> KeyOf(items[i].value) != KeyOf(items[k].value)
  {
    if |items| > 0 {
      var n := |items| - 1;
      CollectedIsList(items[..n]);
      forall i | 0 <= i < n ensures items[..n][i] == items[i] {}
    }
  }

  predicate Readable(obj: Option<Item>) {
    obj.Some? && obj.value.name != "" && obj.value.uid != "" && obj.value.version != ""
  }

  /** Every element is readable, with a name, a UID and a resource version, and no two have the same key. */
  ghost predicate Acceptable(items: seq<Option<Item>>) {
    (forall i :: 0 <= i < |items| ==> Readable(items[i])) &&
    forall i, k :: 0 <= i < k < |items| ==> KeyOf(items[i].value) != KeyOf(items[k].value)
  }

  /** An element of the list has the key. */
  ghost predicate Listing(items: seq<Option<Item>>, key: string) {
    exists i :: 0 <= i < |items| && items[i].Some? && KeyOf(items[i].value) == key
  }

  lemma ListingStep(items: seq<Option<Item>>, init: seq<Option<Item>>, last: Option<Item>, key: string)
    requires items == init + [last]
    ensures Listing(items, key) <==> Listing(init, key) || (last.Some? && KeyOf(last.value) == key)
  {
    if Listing(init, key) {
      var i :| 0 <= i < |init| && init[i].Some? && KeyOf(init[i].value) == key;
      assert items[i] == init[i];
    }
    if last.Some? && KeyOf(last.value) == key { assert items[|init|] == last; }
  }

  lemma AcceptableStep(items: seq<Option<Item>>, init: seq<Option<Item>>, last: Option<Item>)
    requires items == init + [last]
    ensures Acceptable(items) <==> Acceptable(init) && Readable(last) && !Listing(init, KeyOf(last.value))
  {
    assert items[|init|] == last && forall i :: 0 <= i < |init| ==> init[i] == items[i];
    if Acceptable(items) {
      assert Readable(items[|init|]);
      forall i | 0 <= i < |init| && init[i].Some? ensures KeyOf(init[i].value) != KeyOf(last.value) {
        assert KeyOf(items[i].value) != KeyOf(items[|init|].value);
      }
    }
  }

  /** A list is accepted exactly when it is acceptable, and its snapshot has exactly the keys of its elements. */
  lemma {:induction false} CollectedExactly(items: seq<Option<Item>>)
    ensures Collected(items).Some? <==> Acceptable(items)
    ensures Collected(items).Some? ==> forall key :: key in Collected(items).value <==> Listing(items, key)
  {
    if |items| > 0 {
      var init, last := items[..|items| - 1], items[|items| - 1];
      CollectedExactly(init);
      assert items == init + [last];
      AcceptableStep(items, init, last);
      forall key ensures Listing(items, key) <==> Listing(init, key) || (last.Some? && KeyOf(last.value) == key) {
        ListingStep(items, init, last, key);
      }
    }
  }

  /** A separator in neither namespaces nor names keeps the keys of different objects apart. */
  lemma KeysDiffer(a: Item, b: Item)
    requires '/' !in a.namespace && '/' !in a.name && '/' !in b.namespace && '/' !in b.name && KeyOf(a) == KeyOf(b)
    ensures a.namespace == b.namespace && a.name == b.name
  {
    if a.namespace != "" { assert KeyOf(a)[|a.namespace|] == '/'; }
    if b.namespace != "" { assert KeyOf(b)[|b.namespace|] == '/'; }
    if a.namespace != "" && b.namespace != "" {
      assert |a.namespace| == |b.namespace|;
      assert a.namespace == KeyOf(a)[..|a.namespace|] && b.namespace == KeyOf(b)[..|b.namespace|];
      assert a.name == KeyOf(a)[|a.namespace| + 1..] && b.name == KeyOf(b)[|b.namespace| + 1..];
    }
  }

  lemma {:induction false} CollectedPrefix(items: seq<Option<Item>>, n: nat)
    requires n <= |items| && Collected(items[..n]).None?
    ensures Collected(items).None?
    decreases |items| - n
  {
    if n < |items| {
      assert items[..n + 1][..n] == items[..n];
      CollectedPrefix(items, n + 1);
    } else {
      assert items[..n] == items;
    }
  }

  /** One more element of a page: it either extends the snapshot or spoils the list. */
  lemma CollectedNext(before: seq<Option<Item>>, items: seq<Option<Item>>, i: nat)
    requires i < |items| && Collected(before + items[..i]).Some?
    ensures var r, obj := Collected(before + items[..i]).value, items[i];
      if obj.None? || !Complete(obj.value) || KeyOf(obj.value) in r then Collected(before + items).None?
      else Collected(before + items[..i + 1]) == Some(r[KeyOf(obj.value) := EntryOf(obj.value)])
  {
    var n := |before| + i;
    var longer := before + items[..i + 1];
    assert longer[..n] == before + items[..i] && longer[n] == items[i];
    assert (before + items)[..n + 1] == longer;
    if Collected(longer).None? { CollectedPrefix(before + items, n + 1); }
  }

  /** The elements of a list that arrives in pages; a page that fails, or that never comes, is an error. */
  function Listed(pages: seq<Option<Page>>): Option<seq<Option<Item>>> {
    if |pages| == 0 || pages[0].None? then None
    else if !pages[0].value.more then Some(pages[0].value.items)
    else
      var rest := Listed(pages[1..]);
      if rest.None? then None else Some(pages[0].value.items + rest.value)
  }

  /** Page n is the last one, and all pages up to it arrive. */
  ghost predicate EndsAt(pages: seq<Option<Page>>, n: nat) {
    n < |pages| && (forall i :: 0 <= i <= n ==> pages[i].Some?) && !pages[n].value.more &&
    forall i :: 0 <= i < n ==> pages[i].value.more
  }

  /** Listing succeeds exactly when some page says that it is the last one and all pages up to it arrive; then
      the list has exactly the elements of these pages. */
  lemma {:induction false} ListedExactly(pages: seq<Option<Page>>)
    ensures Listed(pages).Some? <==> exists n: nat :: EndsAt(pages, n)
    ensures forall n: nat, x :: EndsAt(pages, n) ==>
      (x in Listed(pages).value <==> exists i :: 0 <= i <= n && x in pages[i].value.items)
    decreases |pages|
  {
    if |pages| > 0 && pages[0].Some? {
      var rest := pages[1..];
      ListedExactly(rest);
      if !pages[0].value.more {
        assert EndsAt(pages, 0);
      } else {
        forall n: nat ensures EndsAt(rest, n) <==> EndsAt(pages, n + 1) { EndsLater(pages, n); }
        forall n: nat, x | EndsAt(pages, n)
          ensures Listed(pages).Some? && (x in Listed(pages).value <==> exists i :: 0 <= i <= n && x in pages[i].value.items)
        {
          assert n > 0 && EndsAt(rest, n - 1) && Listed(pages).Some?;
          FoundLater(pages, n, x);
        }
        if Listed(pages).Some? {
          var n: nat :| EndsAt(rest, n);
          assert EndsAt(pages, n + 1);
        }
        if exists n: nat :: EndsAt(pages, n) {
          var n: nat :| EndsAt(pages, n);
          assert EndsAt(rest, n - 1);
        }
      }
    }
  }

  lemma EndsLater(pages: seq<Option<Page>>, n: nat)
    requires |pages| > 0 && pages[0].Some? && pages[0].value.more
    ensures EndsAt(pages[1..], n) <==> EndsAt(pages, n + 1)
  {
    var rest := pages[1..];
    assert forall i :: 0 <= i < |rest| ==> rest[i] == pages[i + 1];
    if EndsAt(rest, n) {
      forall i | 0 <= i <= n + 1 ensures pages[i].Some? && (i <= n ==> pages[i].value.more) {
        if i > 0 { assert rest[i - 1] == pages[i]; }
      }
    }
  }

  lemma FoundLater(pages: seq<Option<Page>>, n: nat, x: Option<Item>)
    requires n > 0 && EndsAt(pages, n)
    ensures (exists i :: 0 <= i <= n && x in pages[i].value.items) <==>
      x in pages[0].value.items || exists i :: 0 <= i <= n - 1 && x in pages[1..][i].value.items
  {
    if exists i :: 0 <= i <= n && x in pages[i].value.items {
      var i :| 0 <= i <= n && x in pages[i].value.items;
      if i > 0 { assert x in pages[1..][i - 1].value.items; }
    }
    if exists i :: 0 <= i <= n - 1 && x in pages[1..][i].value.items {
      var i :| 0 <= i <= n - 1 && x in pages[1..][i].value.items;
      assert x in pages[i + 1].value.items;
    }
  }

  /** What a scan will accept: all pages arrive, and the list has a snapshot. */
  function Scanned(pages: seq<Option<Page>>): Option<Snapshot> {
    if Listed(pages).None? then None else Collected(Listed(pages).value)
  }

  // ----- what the events of a key mean -----

  /** What an event makes of a key: nothing, if the event does not fit what the key holds. */
  function Applied(held: Option<Entry>, e: Event): Option<Option<Entry>> {
    match e
    case OnAdd(_, current) => if held.None? then Some(Some(current)) else None
    case OnUpdate(_, previous, current) =>
      if held == Some(previous) && previous.uid == current.uid then Some(Some(current)) else None
    case OnDelete(_, previous) => if held == Some(previous) then Some(None) else None
  }

  /** Events that fit, one after the other: they have the form (Add Update* Delete)*, an update keeps the
      UID, and updates and deletes carry the object that the key holds. */
  function Replayed(held: Option<Entry>, events: seq<Event>): Option<Option<Entry>> {
    if |events| == 0 then Some(held)
    else
      var before := Replayed(held, events[..|events| - 1]);
      if before.None? then None else Applied(before.value, events[|events| - 1])
  }

  /** The events of one key. */
  function Of(events: seq<Event>, key: string): seq<Event> {
    if |events| == 0 then []
    else
      var before, last := Of(events[..|events| - 1], key), events[|events| - 1];
      if last.key == key then before + [last] else before
  }

  lemma OfAppended(events: seq<Event>, e: Event, key: string)
    ensures Of(events + [e], key) == if e.key == key then Of(events, key) + [e] else Of(events, key)
  {
    assert (events + [e])[..|events|] == events;
  }

  lemma {:induction false} OfConcat(a: seq<Event>, b: seq<Event>, key: string)
    ensures Of(a + b, key) == Of(a, key) + Of(b, key)
    decreases |b|
  {
    if |b| == 0 {
      assert a + b == a;
    } else {
      var n := |b| - 1;
      OfConcat(a, b[..n], key);
      assert (a + b)[..|a + b| - 1] == a + b[..n];
      assert (a + b)[|a + b| - 1] == b[n];
    }
  }

  lemma {:induction false} ReplayedConcat(held: Option<Entry>, a: seq<Event>, b: seq<Event>)
    requires Replayed(held, a).Some?
    ensures Replayed(held, a + b) == Replayed(Replayed(held, a).value, b)
    decreases |b|
  {
    if |b| == 0 {
      assert a + b == a;
    } else {
      var n := |b| - 1;
      ReplayedConcat(held, a, b[..n]);
      assert (a + b)[..|a + b| - 1] == a + b[..n];
      assert (a + b)[|a + b| - 1] == b[n];
    }
  }

  function Lookup(s: Snapshot, key: string): Option<Entry> {
    if key in s then Some(s[key]) else None
  }

  /** The events that a key must see between two snapshots. */
  function Due(old_: Snapshot, next: Snapshot, key: string): seq<Event> {
    if key !in old_ && key !in next then []
    else if key !in old_ then [OnAdd(key, next[key])]
    else if key !in next then [OnDelete(key, old_[key])]
    else if old_[key].uid != next[key].uid then [OnDelete(key, old_[key]), OnAdd(key, next[key])]
    else [OnUpdate(key, old_[key], next[key])]
  }

  lemma ReplayOne(held: Option<Entry>, e: Event)
    ensures Replayed(held, [e]) == Applied(held, e)
  {
    assert [e][..0] == [];
    assert Replayed(held, []) == Some(held);
  }

  lemma DueReplays(old_: Snapshot, next: Snapshot, key: string)
    ensures Replayed(Lookup(old_, key), Due(old_, next, key)) == Some(Lookup(next, key))
  {
    var due := Due(old_, next, key);
    if |due| == 1 {
      ReplayOne(Lookup(old_, key), due[0]);
      assert due == [due[0]];
    } else if |due| == 2 {
      ReplayOne(Lookup(old_, key), due[0]);
      assert due[..1] == [due[0]];
    }
  }

  /** The snapshot has this object, told apart by its UID, under the key. */
  predicate Has(s: Snapshot, key: string, uid: string) {
    key in s && s[key].uid == uid
  }

  /** Between two snapshots an object is added exactly when it was not there and is, deleted exactly when it was
      there and is not, and updated exactly when it was there and is; it is told of at most once, with what
      the snapshots hold. */
  lemma EventsSayWhat(old_: Snapshot, next: Snapshot, key: string, uid: string)
    ensures var due := Due(old_, next, key);
      ((exists e :: e in due && e.OnAdd? && e.current.uid == uid) <==> !Has(old_, key, uid) && Has(next, key, uid)) &&
      ((exists e :: e in due && e.OnDelete? && e.previous.uid == uid) <==> Has(old_, key, uid) && !Has(next, key, uid)) &&
      ((exists e :: e in due && e.OnUpdate? && e.current.uid == uid) <==> Has(old_, key, uid) && Has(next, key, uid)) &&
      (forall e :: e in due ==>
        e.key == key && (!e.OnDelete? ==> key in next && e.current == next[key]) &&
        (!e.OnAdd? ==> key in old_ && e.previous == old_[key])) &&
      forall i, k :: 0 <= i < k < |due| ==> due[i].OnDelete? && due[k].OnAdd?
  {
    var due := Due(old_, next, key);
    if |due| > 0 { assert due[0] in due; }
    if |due| > 1 { assert due[1] in due; }
  }

  // ----- a handler that applies every event -----

  /** A handler keeps what it was last told. */
  function Handled(held: Snapshot, events: seq<Event>): Snapshot {
    if |events| == 0 then held
    else
      var before := Handled(held, events[..|events| - 1]);
      match events[|events| - 1]
      case OnAdd(key, current) => before[key := current]
      case OnUpdate(key, previous, current) => before[key := current]
      case OnDelete(key, previous) => before - {key}
  }

  /** For each key, a handler holds what replaying the key's events says. */
  lemma {:induction false} HandledByKey(held: Snapshot, events: seq<Event>, key: string)
    requires Replayed(Lookup(held, key), Of(events, key)).Some?
    ensures Some(Lookup(Handled(held, events), key)) == Replayed(Lookup(held, key), Of(events, key))
  {
    if |events| > 0 {
      var init, last := events[..|events| - 1], events[|events| - 1];
      if last.key == key { assert Of(events, key)[..|Of(events, key)| - 1] == Of(init, key); }
      HandledByKey(held, init, key);
    }
  }

  // ----- the source -----

  class PollingSource {
    var snapshot: Snapshot
    var synced: bool
    ghost var log: seq<Event>    // everything the handlers have been told

    /** The handlers have been told exactly how the snapshot came about. */
    ghost predicate Valid()
      reads this
    {
      forall key :: Replayed(None, Of(log, key)) == Some(Lookup(snapshot, key))
    }

    constructor ()
      ensures Valid() && snapshot == map[] && log == [] && !synced
    {
      snapshot, synced, log := map[], false, [];
      new;
      assert forall key :: Of(log, key) == [];
    }

    method Notify(e: Event)
      modifies this`log
      ensures log == old(log) + [e]
    {
      log := log + [e];
    }

    /** Adds the elements of one page to the snapshot that is being collected. */
    static method CollectPage(next: Snapshot, items: seq<Option<Item>>, ghost before: seq<Option<Item>>)
      returns (ok: bool, r: Snapshot)
      requires Collected(before) == Some(next)
      ensures ok <==> Collected(before + items).Some?
      ensures ok ==> Collected(before + items) == Some(r)
    {
      r := next;
      assert before + items[..0] == before;
      for i := 0 to |items|
        invariant Collected(before + items[..i]) == Some(r)
      {
        var obj := items[i];
        CollectedNext(before, items, i);
        if obj.None? || !Complete(obj.value) || KeyOf(obj.value) in r { return false, r; }
        r := r[KeyOf(obj.value) := EntryOf(obj.value)];
      }
      assert items[..|items|] == items;
      return true, r;
    }

    /** Lists everything, page by page. */
    static method List(pages: seq<Option<Page>>) returns (r: Option<Snapshot>)
      ensures r == Scanned(pages)
    {
      var next: Snapshot := map[];
      ghost var before: seq<Option<Item>> := [];
      var p := 0;
      assert pages[0..] == pages;
      assert Listed(pages).Some? ==> before + Listed(pages).value == Listed(pages).value;
      while p < |pages|
        invariant p <= |pages| && Collected(before) == Some(next)
        invariant Listed(pages) == if Listed(pages[p..]).None? then None else Some(before + Listed(pages[p..]).value)
      {
        if pages[p].None? { return None; }
        var page := pages[p].value;
        var ok;
        ok, next := CollectPage(next, page.items, before);
        assert pages[p..][1..] == pages[p + 1..];
        if !ok {
          if Listed(pages).Some? {
            var all := Listed(pages).value;
            assert all[..|before + page.items|] == before + page.items;
            CollectedPrefix(all, |before + page.items|);
          }
          return None;
        }
        if !page.more { return Some(next); }
        ghost var rest := Listed(pages[p + 1..]);
        if rest.Some? { assert before + (page.items + rest.value) == before + page.items + rest.value; }
        before := before + page.items;
        p := p + 1;
      }
      return None;
    }

    /** One scan. A scan that fails on any page changes nothing. */
    method Scan(pages: seq<Option<Page>>) returns (ok: bool)
      requires Valid()
      modifies this
      ensures Valid() && (ok <==> Scanned(pages).Some?)
      ensures ok ==> synced && Some(snapshot) == Scanned(pages) && old(log) <= log
      ensures ok ==> forall key :: Of(log[|old(log)|..], key) == Due(old(snapshot), snapshot, key)
      ensures !ok ==> snapshot == old(snapshot) && log == old(log) && synced == old(synced)
    {
      var next := List(pages);
      if next.None? { return false; }
      var before := snapshot;
      ghost var told := log;
      snapshot := next.value;
      Dispatch(before, next.value);
      synced := true;
      DispatchedIsValid(before, next.value, told, log);
      return true;
    }

    method TellIfGone(before: Snapshot, next: Snapshot, key: string)
      requires key in before
      modifies this`log
      ensures log == old(log) + GoneDue(before, next, key)
    {
      if key !in next { Notify(OnDelete(key, before[key])); }
    }

    /** Tells the handlers of keys that are gone. */
    method TellGone(before: Snapshot, next: Snapshot)
      modifies this`log
      ensures old(log) <= log && GoneTold(log[|old(log)|..], before, next, {})
    {
      ghost var told := log;
      var rest := before.Keys;
      NothingTold(before, next);
      assert log[|told|..] == [];
      while rest != {}
        invariant rest <= before.Keys && told <= log && GoneTold(log[|told|..], before, next, rest)
        decreases |rest|
      {
        var key :| key in rest;
        GoneStep(log[|told|..], before, next, rest, key);
        rest := rest - {key};
        ghost var was := log;
        TellIfGone(before, next, key);
        TailAppended(was, GoneDue(before, next, key), |told|);
      }
    }

    /** Tells the handlers about one key that is there. */
    method TellPresent(before: Snapshot, next: Snapshot, key: string)
      requires key in next
      modifies this`log
      ensures log == old(log) + Due(before, next, key)
    {
      var current := next[key];
      if key !in before || before[key].uid != current.uid {
        if key in before { Notify(OnDelete(key, before[key])); }
        Notify(OnAdd(key, current));
        return;
      }
      Notify(OnUpdate(key, before[key], current));
    }

    /** Tells the handlers how the second snapshot differs from the first. */
    method Dispatch(before: Snapshot, next: Snapshot)
      modifies this`log
      ensures old(log) <= log && PresentTold(log[|old(log)|..], before, next, {})
    {
      ghost var told := log;
      TellGone(before, next);
      GoneIsStart(log[|told|..], before, next);
      var rest := next.Keys;
      while rest != {}
        invariant rest <= next.Keys && told <= log && PresentTold(log[|told|..], before, next, rest)
        decreases |rest|
      {
        var key :| key in rest;
        PresentStep(log[|told|..], before, next, rest, key);
        rest := rest - {key};
        ghost var was := log;
        TellPresent(before, next, key);
        TailAppended(was, Due(before, next, key), |told|);
      }
    }
  }

  /** The keys outside `rest` that are gone have been told of. */
  ghost predicate GoneTold(events: seq<Event>, before: Snapshot, next: Snapshot, rest: set<string>) {
    forall key :: Of(events, key) == (if key in before && key !in next && key !in rest then Due(before, next, key) else [])
  }

  /** All keys outside `rest` have been told of. */
  ghost predicate PresentTold(events: seq<Event>, before: Snapshot, next: Snapshot, rest: set<string>) {
    forall key :: Of(events, key) == (if key in rest then [] else Due(before, next, key))
  }

  lemma OfDue(before: Snapshot, next: Snapshot, key: string, k: string)
    ensures Of(Due(before, next, key), k) == if k == key then Due(before, next, key) else []
  {
    var due := Due(before, next, key);
    assert Of([], k) == [];
    if |due| > 0 { OfAppended([], due[0], k); }
    if |due| == 1 { assert due == [] + [due[0]]; }
    if |due| == 2 {
      OfAppended([due[0]], due[1], k);
      assert due == [due[0]] + [due[1]] && [due[0]] == [] + [due[0]];
    }
  }

  /** The event of a key that is gone. */
  function GoneDue(before: Snapshot, next: Snapshot, key: string): seq<Event>
    requires key in before
  {
    if key in next then [] else [OnDelete(key, before[key])]
  }

  /** The events due for a key are added to that key's events, and to no other's. */
  lemma KeyTold(events: seq<Event>, before: Snapshot, next: Snapshot, key: string, k: string)
    ensures Of(events + Due(before, next, key), k) == (if k == key then Of(events, k) + Due(before, next, key) else Of(events, k))
  {
    OfConcat(events, Due(before, next, key), k);
    OfDue(before, next, key, k);
  }

  lemma GoneStep(events: seq<Event>, before: Snapshot, next: Snapshot, rest: set<string>, key: string)
    requires GoneTold(events, before, next, rest) && key in rest && key in before
    ensures GoneTold(events + GoneDue(before, next, key), before, next, rest - {key})
  {
    var after := events + GoneDue(before, next, key);
    forall k ensures Of(after, k) == if k in before && k !in next && k !in rest - {key} then Due(before, next, k) else [] {
      if key in next { assert after == events; } else { KeyTold(events, before, next, key, k); }
    }
  }

  lemma PresentStep(events: seq<Event>, before: Snapshot, next: Snapshot, rest: set<string>, key: string)
    requires PresentTold(events, before, next, rest) && key in rest && key in next
    ensures PresentTold(events + Due(before, next, key), before, next, rest - {key})
  {
    forall k ensures Of(events + Due(before, next, key), k) == if k in rest - {key} then [] else Due(before, next, k) {
      KeyTold(events, before, next, key, k);
    }
  }

  lemma TailAppended(log: seq<Event>, more: seq<Event>, n: nat)
    requires n <= |log|
    ensures (log + more)[n..] == log[n..] + more && (log + more)[..n] == log[..n]
  {
  }

  lemma NothingTold(before: Snapshot, next: Snapshot)
    ensures GoneTold([], before, next, before.Keys)
  {
  }

  lemma GoneIsStart(events: seq<Event>, before: Snapshot, next: Snapshot)
    requires GoneTold(events, before, next, {})
    ensures PresentTold(events, before, next, next.Keys)
  {
  }

  lemma DispatchedIsValid(before: Snapshot, next: Snapshot, told: seq<Event>, log: seq<Event>)
    requires forall key :: Replayed(None, Of(told, key)) == Some(Lookup(before, key))
    requires told <= log && forall key :: Of(log[|told|..], key) == Due(before, next, key)
    ensures forall key :: Replayed(None, Of(log, key)) == Some(Lookup(next, key))
  {
    forall key ensures Replayed(None, Of(log, key)) == Some(Lookup(next, key)) {
      assert log == told + log[|told|..];
      OfConcat(told, log[|told|..], key);
      ReplayedConcat(None, Of(told, key), Due(before, next, key));
      DueReplays(before, next, key);
    }
  }

  /** A handler that has applied everything it was told holds exactly the source's snapshot. */
  lemma HandlerHoldsSnapshot(s: PollingSource)
    requires s.Valid()
    ensures Handled(map[], s.log) == s.snapshot
  {
    var held := Handled(map[], s.log);
    forall key ensures Lookup(held, key) == Lookup(s.snapshot, key) {
      HandledByKey(map[], s.log, key);
    }
    forall key ensures key in held <==> key in s.snapshot { assert Lookup(held, key) == Lookup(s.snapshot, key); }
    forall key | key in held ensures held[key] == s.snapshot[key] { assert Lookup(held, key) == Lookup(s.snapshot, key); }
  }
}

/** src/portfwd.c: the relay table, a singly linked list edited in place, and the account of relays
    per session. A session is known by its number. */
module Portfwd {
  import opened Bytes

  /** One relay; the serial number of the open that made it is history only. */
  datatype Entry = Entry(id: u32, owner: nat, serial: nat)

  /** The list from newest to oldest, the next id, the number of opens tried (history), and the
      relay_opens and relay_closes counters of the sessions. */
  datatype Table = Table(entries: seq<Entry>, next: u32, tried: nat, opens: map<nat, nat>, closes: map<nat, nat>)

  function Bump(m: map<nat, nat>, k: nat): map<nat, nat> {
    m[k := (if k in m then m[k] else 0) + 1]
  }

  // ---- On values ----

  function Wrap(n: nat): u32 {
    n % TWO_32
  }

  /** portfwd_open: the id is used up even when listening fails. */
  function Open(t: Table, owner: nat, ok: bool): Table {
    var t1 := t.(next := Wrap(t.next + 1), tried := t.tried + 1);
    if !ok then t1
    else t1.(entries := [Entry(t.next, owner, t1.tried)] + t.entries, opens := Bump(t.opens, owner))
  }

  /** Where the first relay with this id is, or the length of the list. */
  function FirstWith(entries: seq<Entry>, id: u32): (n: nat)
    ensures n <= |entries|
    ensures n < |entries| ==> entries[n].id == id
    ensures forall i :: 0 <= i < n ==> entries[i].id != id
  {
    if entries == [] || entries[0].id == id then 0 else 1 + FirstWith(entries[1..], id)
  }

  function Without<T>(s: seq<T>, n: nat): seq<T>
    requires n < |s|
  {
    s[..n] + s[n + 1..]
  }

  /** portfwd_close: the first relay with the id goes, and its owner's counter goes up. */
  function Close(t: Table, id: u32): (Table, bool) {
    var n := FirstWith(t.entries, id);
    if n == |t.entries| then (t, false)
    else (t.(entries := Without(t.entries, n), closes := Bump(t.closes, t.entries[n].owner)), true)
  }

  /** The relays of the other sessions, in order. */
  function NotOwned(entries: seq<Entry>, owner: nat): seq<Entry> {
    if entries == [] then []
    else
      var front, e := NotOwned(entries[..|entries| - 1], owner), entries[|entries| - 1];
      if e.owner == owner then front else front + [e]
  }

  /** portfwd_close_session. */
  function CloseOwner(t: Table, owner: nat): Table {
    t.(entries := NotOwned(t.entries, owner))
  }

  // ---- In place ----

  class Relay {
    const entry: Entry
    var next: Relay?
    var closing: bool

    constructor (entry: Entry, next: Relay?)
      ensures this.entry == entry && this.next == next && !closing
    {
      this.entry, this.next, this.closing := entry, next, false;
    }
  }

  ghost function EntriesOf(list: seq<Relay>): (r: seq<Entry>)
    ensures |r| == |list|
    ensures forall i :: 0 <= i < |list| ==> r[i] == list[i].entry
  {
    seq(|list|, i requires 0 <= i < |list| => list[i].entry)
  }

  /** What a pointer to position i of the list holds. */
  ghost function ItemAt(list: seq<Relay>, i: nat): Relay? {
    if i < |list| then list[i] else null
  }

  class Engine {
    var relays: Relay?
    var nextRelayId: u32
    var opens: map<nat, nat>
    var closes: map<nat, nat>
    var tried: nat
    ghost var list: seq<Relay>
    ghost var repr: set<Relay>

    /** The pointers form the list; and of all relays ever opened, those in the list are open and
        those out of it are closing. */
    ghost predicate Valid()
      reads this`relays, this`list, this`repr, repr
    {
      Linked() && Marked(list)
    }

    ghost predicate Marked(open: seq<Relay>)
      reads this`repr, repr
    {
      forall r <- repr :: r.closing <==> r !in open
    }

    ghost predicate Linked()
      reads this`relays, this`list, this`repr, repr
    {
      && (forall i :: 0 <= i < |list| ==> list[i] in repr)
      && relays == ItemAt(list, 0)
      && (forall i :: 0 <= i < |list| ==> list[i].next == ItemAt(list, i + 1))
      && (forall i, j :: 0 <= i < j < |list| ==> list[i] != list[j])
    }

    ghost function Contents(): Table
      reads this
    {
      Table(EntriesOf(list), nextRelayId, tried, opens, closes)
    }

    constructor ()
      ensures Valid() && repr == {} && Contents() == Table([], 1, 0, map[], map[])
    {
      relays, nextRelayId, opens, closes := null, 1, map[], map[];
      tried, list, repr := 0, [], {};
    }

    method OpenRelay(owner: nat, ok: bool) returns (id: u32)
      requires Valid()
      modifies this
      ensures Valid() && Contents() == Open(old(Contents()), owner, ok)
      ensures id == old(nextRelayId) && fresh(repr - old(repr))
    {
      hide Valid, EntriesOf;
      id := nextRelayId;
      nextRelayId := (nextRelayId + 1) % TWO_32;
      tried := tried + 1;
      if !ok {
        return;
      }
      Push(Entry(id, owner, tried));
      opens := Bump(opens, owner);
    }

    /** The new relay becomes the head of the list. */
    method Push(entry: Entry)
      requires Valid()
      modifies this`relays, this`list, this`repr
      ensures fresh(repr - old(repr))
      ensures Valid() && EntriesOf(list) == [entry] + old(EntriesOf(list))
    {
      var relay := new Relay(entry, relays);
      relays := relay;
      ghost var before := list;
      list := [relay] + list;
      repr := repr + {relay};
      EntriesCons(relay, before);
      assert forall i :: 0 < i < |list| ==> list[i] == before[i - 1];
    }

    /** relay_remove: the pointer that leads to the relay is redirected past it. */
    method Remove(relay: Relay, ghost n: nat)
      requires Linked() && n < |list| && list[n] == relay
      modifies this`relays, this`list, repr
      ensures Linked() && list == Without(old(list), n)
      ensures forall r <- repr :: r.closing == old(r.closing)
      ensures relay.next == old(relay.next)
    {
      var prev: Relay? := null;
      var it := relays;
      ghost var i := 0;
      while it != relay
        invariant 0 <= i <= n
        invariant it == list[i]
        invariant prev == if i == 0 then null else list[i - 1]
        decreases n - i
      {
        assert it != list[n];
        prev := it;
        it := it.next;
        i := i + 1;
      }
      assert i == n;
      if prev == null {
        relays := relay.next;
      } else {
        prev.next := relay.next;
      }
      list := list[..n] + list[n + 1..];
    }

    /** relay_destroy: a relay that is closing has left the list already. */
    method Destroy(relay: Relay, ghost n: nat)
      requires Valid() && relay in repr && (!relay.closing ==> n < |list| && list[n] == relay)
      modifies this`relays, this`list, repr
      ensures Valid()
      ensures list == if old(relay.closing) then old(list) else Without(old(list), n)
      ensures relay.closing && relay.next == old(relay.next)
      ensures forall r <- repr :: r != relay ==> r.closing == old(r.closing)
    {
      if relay.closing {
        return;
      }
      relay.closing := true;
      MarkedWithout(relay, n);
      Remove(relay, n);
    }

    /** Once the relay is marked, the marks fit the list without it. */
    lemma MarkedWithout(relay: Relay, n: nat)
      requires Linked() && n < |list| && list[n] == relay && relay.closing
      requires forall r <- repr :: r != relay ==> (r.closing <==> r !in list)
      ensures Marked(Without(list, n))
    {
      var less := Without(list, n);
      forall r <- repr ensures r.closing <==> r !in less {
        if r in list && r != relay {
          var i :| 0 <= i < |list| && list[i] == r;
          assert r == if i < n then less[i] else less[i - 1];
        }
      }
    }

    /** The walk of portfwd_close to the first relay with the id. */
    method Find(id: u32) returns (relay: Relay?, ghost n: nat)
      requires Valid()
      ensures n == FirstWith(EntriesOf(list), id) && relay == ItemAt(list, n)
    {
      relay := relays;
      n := 0;
      ghost var entries := EntriesOf(list);
      while relay != null && relay.entry.id != id
        invariant 0 <= n <= |list| && relay == ItemAt(list, n)
        invariant forall j :: 0 <= j < n ==> entries[j].id != id
        decreases |list| - n
      {
        assert list[n].next == ItemAt(list, n + 1);
        relay := relay.next;
        n := n + 1;
      }
      FirstWithIs(entries, id, n);
    }

    method CloseById(id: u32) returns (found: bool)
      requires Valid()
      modifies this`relays, this`list, this`closes, repr
      ensures Valid() && (Contents(), found) == Close(old(Contents()), id)
    {
      hide FirstWith, Linked, EntriesOf;
      var relay, n := Find(id);
      if relay == null {
        return false;
      }
      ListedIsOpen(n);
      closes := Bump(closes, relay.entry.owner);
      EntriesWithout(list, n);
      Destroy(relay, n);
      return true;
    }

    /** The walk has passed i relays of all: the owner's are closing and out of the list. */
    ghost predicate Passed(all: seq<Relay>, i: nat, owner: nat)
      requires i <= |all|
      reads this, repr, all
    {
      && Valid() && list == Kept(all[..i], owner) + all[i..]
      && (forall j, k :: 0 <= j < k < |all| ==> all[j] != all[k])
      && (forall j :: 0 <= j < |all| ==> all[j] in repr)
      && (forall j :: 0 <= j < |all| ==> (all[j].closing <==> j < i && all[j].entry.owner == owner))
    }

    /** One turn of portfwd_close_session: the next pointer is read before the relay may go. */
    method Visit(relay: Relay, owner: nat, ghost all: seq<Relay>, ghost i: nat) returns (next: Relay?)
      requires i < |all| && relay == all[i] && Passed(all, i, owner)
      modifies this`relays, this`list, repr
      ensures Passed(all, i + 1, owner)
      ensures next == ItemAt(all, i + 1)
    {
      hide Kept, Linked, Marked, ItemAt;
      ghost var kept := Kept(all[..i], owner);
      ghost var n := |kept|;
      AfterKept(all, i, kept, list);
      KeptOneMore(all, i, owner);
      NextAt(n);
      next := relay.next;
      if relay.entry.owner == owner {
        Destroy(relay, n);
      } else {
        assert kept + all[i..] == (kept + [relay]) + all[i + 1..];
      }
    }

    method CloseSession(owner: nat)
      requires Valid()
      modifies this`relays, this`list, repr
      ensures Valid() && Contents() == CloseOwner(old(Contents()), owner)
      ensures forall r <- old(list) :: r.closing <==> r.entry.owner == owner
    {
      hide Passed, Kept, Valid;
      ghost var all := list;
      var relay := relays;
      ghost var i := 0;
      NonePassed(owner);
      while relay != null
        invariant 0 <= i <= |all| && relay == ItemAt(all, i)
        invariant Passed(all, i, owner)
        decreases |all| - i
      {
        relay := Visit(relay, owner, all, i);
        i := i + 1;
      }
      assert i == |all|;
      AllPassed(all, owner);
    }

    lemma ListedIsOpen(n: nat)
      requires Valid() && n < |list|
      ensures list[n] in repr && !list[n].closing
    {
    }

    lemma NextAt(n: nat)
      requires Linked() && n < |list|
      ensures list[n].next == ItemAt(list, n + 1)
    {
    }

    lemma NonePassed(owner: nat)
      requires Valid()
      ensures Passed(list, 0, owner) && relays == ItemAt(list, 0)
    {
      NothingKept(list, owner);
      forall j | 0 <= j < |list| ensures !list[j].closing {
        assert list[j] in list;
      }
    }

    lemma AllPassed(all: seq<Relay>, owner: nat)
      requires Passed(all, |all|, owner)
      ensures Valid() && EntriesOf(list) == NotOwned(EntriesOf(all), owner)
      ensures forall r <- all :: r.closing <==> r.entry.owner == owner
    {
      assert all[..|all|] == all;
      EntriesKept(all, owner);
      assert list == Kept(all, owner);
    }
  }

  // ---- The list and its entries ----

  ghost function Kept(list: seq<Relay>, owner: nat): seq<Relay> {
    if list == [] then []
    else
      var front, r := Kept(list[..|list| - 1], owner), list[|list| - 1];
      if r.entry.owner == owner then front else front + [r]
  }

  lemma KeptOneMore(all: seq<Relay>, i: nat, owner: nat)
    requires i < |all|
    ensures Kept(all[..i + 1], owner) == Kept(all[..i], owner) + if all[i].entry.owner == owner then [] else [all[i]]
  {
    assert all[..i + 1][..i] == all[..i];
  }

  lemma NothingKept(all: seq<Relay>, owner: nat)
    ensures Kept(all[..0], owner) + all[0..] == all
  {
  }

  lemma {:induction false} EntriesKept(list: seq<Relay>, owner: nat)
    ensures EntriesOf(Kept(list, owner)) == NotOwned(EntriesOf(list), owner)
  {
    if list != [] {
      var n := |list| - 1;
      EntriesKept(list[..n], owner);
      assert EntriesOf(list)[..n] == EntriesOf(list[..n]);
    }
  }

  lemma AfterKept(all: seq<Relay>, i: nat, kept: seq<Relay>, list: seq<Relay>)
    requires i < |all| && list == kept + all[i..]
    ensures var n := |kept|;
            && n < |list| && list[n] == all[i]
            && ItemAt(list, n + 1) == ItemAt(all, i + 1)
            && Without(list, n) == kept + all[i + 1..]
  {
  }

  lemma EntriesCons(relay: Relay, list: seq<Relay>)
    ensures EntriesOf([relay] + list) == [relay.entry] + EntriesOf(list)
  {
  }

  lemma EntriesWithout(list: seq<Relay>, n: nat)
    requires n < |list|
    ensures EntriesOf(Without(list, n)) == Without(EntriesOf(list), n)
  {
  }

  lemma FirstWithIs(entries: seq<Entry>, id: u32, n: nat)
    requires n <= |entries| && (n < |entries| ==> entries[n].id == id)
    requires forall i :: 0 <= i < n ==> entries[i].id != id
    ensures FirstWith(entries, id) == n
  {
  }
}

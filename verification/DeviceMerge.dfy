/**
 The device page's list: what the network finds, what the relay lists and what is paired, merged by
 fingerprint, freed of stale namesakes and put in one order.
 */
module DeviceMerge {
  import opened Prelude

  /** Seconds after which an offline namesake is hidden. */
  const STALE_DUPLICATE_SECS: nat := 86400

  /** Seconds since it was last seen for which a device counts as online. */
  const ONLINE_SECS: nat := 30

  /** Found on the local network, so many whole seconds ago. */
  datatype Local = Local(fp: string, name: string, addr: string, elapsed: nat)

  /** Listed by the relay. */
  datatype Remote = Remote(fp: string, name: string, addr: string)

  /** Paired, at a Unix time in seconds; zero if unknown. */
  datatype Paired = Paired(fp: string, name: string, pairedAt: nat)

  datatype Inputs = Inputs(local: seq<Local>, roster: seq<Remote>, trusted: seq<Paired>,
                           connected: set<string>, aliases: map<string, string>, now: nat)

  datatype Device = Device(fp: string, name: string, addr: string, online: bool, connected: bool, viaRelay: bool)

  // ----- What is shown of each fingerprint -----

  function LastLocal(ls: seq<Local>, fp: string): Option<Local> {
    if ls == [] then None
    else if ls[|ls| - 1].fp == fp then Some(ls[|ls| - 1])
    else LastLocal(ls[..|ls| - 1], fp)
  }

  function FirstRemote(rs: seq<Remote>, fp: string): Option<Remote> {
    if rs == [] then None else
    var r := FirstRemote(rs[..|rs| - 1], fp);
    if r.Some? then r else if rs[|rs| - 1].fp == fp then Some(rs[|rs| - 1]) else None
  }

  function FirstPaired(ps: seq<Paired>, fp: string): Option<Paired> {
    if ps == [] then None else
    var p := FirstPaired(ps[..|ps| - 1], fp);
    if p.Some? then p else if ps[|ps| - 1].fp == fp then Some(ps[|ps| - 1]) else None
  }

  function LastPaired(ps: seq<Paired>, fp: string): Option<Paired> {
    if ps == [] then None
    else if ps[|ps| - 1].fp == fp then Some(ps[|ps| - 1])
    else LastPaired(ps[..|ps| - 1], fp)
  }

  function Shown(aliases: map<string, string>, fp: string, name: string): string {
    if fp in aliases && aliases[fp] != "" then aliases[fp] else name
  }

  function FromLocal(inp: Inputs, d: Local): Device {
    Device(d.fp, Shown(inp.aliases, d.fp, d.name), d.addr, d.elapsed < ONLINE_SECS, d.fp in inp.connected, false)
  }

  function FromRemote(inp: Inputs, r: Remote): Device {
    Device(r.fp, Shown(inp.aliases, r.fp, r.name), r.addr, true, r.fp in inp.connected, true)
  }

  function FromPaired(inp: Inputs, p: Paired): Device {
    Device(p.fp, Shown(inp.aliases, p.fp, p.name), "", false, p.fp in inp.connected, false)
  }

  /** Local over roster over trusted. */
  function Entry(inp: Inputs, fp: string): Option<Device> {
    var l := LastLocal(inp.local, fp);
    if l.Some? then Some(FromLocal(inp, l.value)) else
    var r := FirstRemote(inp.roster, fp);
    if r.Some? then Some(FromRemote(inp, r.value)) else
    var p := FirstPaired(inp.trusted, fp);
    if p.Some? then Some(FromPaired(inp, p.value)) else None
  }

  function Known(inp: Inputs): set<string> {
    (set d <- inp.local :: d.fp) + (set r <- inp.roster :: r.fp) + (set p <- inp.trusted :: p.fp)
  }

  /** Not seen, or paired, for a day; a fingerprint of the roster alone is never stale. */
  predicate Stale(inp: Inputs, fp: string) {
    var l := LastLocal(inp.local, fp);
    if l.Some? then l.value.elapsed >= STALE_DUPLICATE_SECS else
    var p := LastPaired(inp.trusted, fp);
    p.Some? && p.value.pairedAt > 0 && SatSub(inp.now, p.value.pairedAt) >= STALE_DUPLICATE_SECS
  }

  lemma {:induction false} LocalFound(ls: seq<Local>, fp: string)
    ensures LastLocal(ls, fp).Some? <==> exists d <- ls :: d.fp == fp
    ensures LastLocal(ls, fp).Some? ==> LastLocal(ls, fp).value in ls && LastLocal(ls, fp).value.fp == fp
  {
    if ls != [] {
      LocalFound(ls[..|ls| - 1], fp);
      assert ls == ls[..|ls| - 1] + [ls[|ls| - 1]];
    }
  }

  lemma {:induction false} RemoteFound(rs: seq<Remote>, fp: string)
    ensures FirstRemote(rs, fp).Some? <==> exists r <- rs :: r.fp == fp
    ensures FirstRemote(rs, fp).Some? ==> FirstRemote(rs, fp).value in rs && FirstRemote(rs, fp).value.fp == fp
  {
    if rs != [] {
      RemoteFound(rs[..|rs| - 1], fp);
      assert rs == rs[..|rs| - 1] + [rs[|rs| - 1]];
    }
  }

  lemma {:induction false} PairedFound(ps: seq<Paired>, fp: string)
    ensures FirstPaired(ps, fp).Some? <==> exists p <- ps :: p.fp == fp
    ensures FirstPaired(ps, fp).Some? ==> FirstPaired(ps, fp).value in ps && FirstPaired(ps, fp).value.fp == fp
    ensures LastPaired(ps, fp).Some? <==> exists p <- ps :: p.fp == fp
    ensures LastPaired(ps, fp).Some? ==> LastPaired(ps, fp).value in ps && LastPaired(ps, fp).value.fp == fp
  {
    if ps != [] {
      PairedFound(ps[..|ps| - 1], fp);
      assert ps == ps[..|ps| - 1] + [ps[|ps| - 1]];
    }
  }

  lemma EntryIffKnown(inp: Inputs, fp: string)
    ensures Entry(inp, fp).Some? <==> fp in Known(inp)
    ensures Entry(inp, fp).Some? ==> Entry(inp, fp).value.fp == fp
  {
    LocalFound(inp.local, fp);
    RemoteFound(inp.roster, fp);
    PairedFound(inp.trusted, fp);
  }

  /** Offline, stale, and another known fingerprint shows the same name. */
  predicate Hidden(inp: Inputs, fp: string) {
    var e := Entry(inp, fp);
    && e.Some? && !e.value.online && Stale(inp, fp)
    && exists o <- Known(inp) :: o != fp && Entry(inp, o).Some? && Entry(inp, o).value.name == e.value.name
  }

  /** The devices the page is to show. */
  function Visible(inp: Inputs): set<Device> {
    set fp | fp in Known(inp) && Entry(inp, fp).Some? && !Hidden(inp, fp) :: Entry(inp, fp).value
  }

  // ----- The order -----

  predicate StrLess(s: string, t: string) {
    t != "" && (s == "" || if s[0] != t[0] then s[0] < t[0] else StrLess(s[1..], t[1..]))
  }

  /** Connected first, then online, then by name, then by fingerprint. */
  predicate Before(a: Device, b: Device) {
    if a.connected != b.connected then a.connected
    else if a.online != b.online then a.online
    else if a.name != b.name then StrLess(a.name, b.name)
    else StrLess(a.fp, b.fp)
  }

  lemma {:induction false} StrTotal(s: string, t: string)
    ensures StrLess(s, t) || s == t || StrLess(t, s)
    ensures !(StrLess(s, t) && StrLess(t, s)) && !StrLess(s, s)
  {
    if s != "" && t != "" && s[0] == t[0] {
      StrTotal(s[1..], t[1..]);
      assert s[1..] == t[1..] ==> s == t;
      StrTotal(s[1..], s[1..]);
    } else if s != "" {
      StrTotal(s[1..], s[1..]);
    }
  }

  lemma {:induction false} StrTransitive(s: string, t: string, u: string)
    requires StrLess(s, t) && StrLess(t, u)
    ensures StrLess(s, u)
  {
    if s != "" && s[0] == t[0] == u[0] {
      StrTransitive(s[1..], t[1..], u[1..]);
    }
  }

  /** Of two devices with different fingerprints exactly one comes first. */
  lemma BeforeTotal(a: Device, b: Device)
    ensures !(Before(a, b) && Before(b, a))
    ensures a.fp != b.fp ==> Before(a, b) || Before(b, a)
  {
    StrTotal(a.name, b.name);
    StrTotal(a.fp, b.fp);
  }

  lemma BeforeTransitive(a: Device, b: Device, c: Device)
    requires Before(a, b) && Before(b, c)
    ensures Before(a, c)
  {
    hide StrLess;
    StrTotal(a.name, c.name);
    StrTotal(a.name, b.name);
    if a.name != b.name && b.name != c.name && StrLess(a.name, b.name) && StrLess(b.name, c.name) {
      StrTransitive(a.name, b.name, c.name);
    }
    if StrLess(a.fp, b.fp) && StrLess(b.fp, c.fp) {
      StrTransitive(a.fp, b.fp, c.fp);
    }
  }

  ghost predicate Sorted(s: seq<Device>) {
    forall i, j | 0 <= i < j < |s| :: Before(s[i], s[j])
  }

  ghost function Elements(s: seq<Device>): set<Device> {
    set d <- s
  }

  /** A set of devices has one sorted list. */
  lemma {:induction false} SortedUnique(s: seq<Device>, t: seq<Device>)
    requires Sorted(s) && Sorted(t) && Elements(s) == Elements(t)
    ensures s == t
  {
    NoElements(s);
    NoElements(t);
    if s != [] {
      assert s[0] in Elements(t);
      var i :| 0 <= i < |t| && t[i] == s[0];
      assert t[0] in Elements(s);
      var j :| 0 <= j < |s| && s[j] == t[0];
      BeforeTotal(s[0], t[0]);
      assert s[0] == t[0];
      TailElements(s);
      TailElements(t);
      SortedUnique(s[1..], t[1..]);
      assert s == [s[0]] + s[1..] && t == [t[0]] + t[1..];
    }
  }

  lemma NoElements(s: seq<Device>)
    ensures Elements(s) == {} <==> s == []
  {
    if s != [] {
      assert s[0] in Elements(s);
    }
  }

  lemma TailElements(s: seq<Device>)
    requires s != [] && Sorted(s)
    ensures Elements(s[1..]) == Elements(s) - {s[0]}
  {
    forall i | 0 < i < |s| ensures s[i] != s[0] {
      BeforeTotal(s[0], s[i]);
    }
    forall d | d in Elements(s) && d != s[0] ensures d in Elements(s[1..]) {
      var i :| 0 <= i < |s| && s[i] == d;
      assert s[1..][i - 1] == d;
    }
  }

  // ----- The merge -----

  /** A table holds exactly the entries of the inputs. */
  ghost predicate Holds(table: map<string, Device>, inp: Inputs) {
    forall fp :: if fp in table then Entry(inp, fp) == Some(table[fp]) else Entry(inp, fp).None?
  }

  lemma LocalHolds(table: map<string, Device>, inp: Inputs, d: Local)
    requires Holds(table, inp) && inp.roster == [] && inp.trusted == []
    ensures Holds(table[d.fp := FromLocal(inp, d)], inp.(local := inp.local + [d]))
  {
    var ls := inp.local + [d];
    assert ls[..|ls| - 1] == inp.local;
  }

  lemma RemoteHolds(table: map<string, Device>, inp: Inputs, r: Remote)
    requires Holds(table, inp) && inp.trusted == []
    ensures Holds(if r.fp in table then table else table[r.fp := FromRemote(inp, r)], inp.(roster := inp.roster + [r]))
  {
    var rs := inp.roster + [r];
    assert rs[..|rs| - 1] == inp.roster;
  }

  lemma PairedHolds(table: map<string, Device>, inp: Inputs, p: Paired)
    requires Holds(table, inp)
    ensures Holds(if p.fp in table then table else table[p.fp := FromPaired(inp, p)], inp.(trusted := inp.trusted + [p]))
  {
    var ps := inp.trusted + [p];
    assert ps[..|ps| - 1] == inp.trusted;
  }

  method Collect(inp: Inputs) returns (table: map<string, Device>)
    ensures Holds(table, inp)
  {
    hide Entry;
    table := map[];
    ghost var part := inp.(local := [], roster := [], trusted := []);
    NothingHolds(part);
    for i := 0 to |inp.local|
      invariant part == inp.(local := inp.local[..i], roster := [], trusted := []) && Holds(table, part)
    {
      LocalHolds(table, part, inp.local[i]);
      table := table[inp.local[i].fp := FromLocal(inp, inp.local[i])];
      assert inp.local[..i + 1] == inp.local[..i] + [inp.local[i]];
      part := part.(local := inp.local[..i + 1]);
    }
    assert inp.local[..|inp.local|] == inp.local;
    for i := 0 to |inp.roster|
      invariant part == inp.(roster := inp.roster[..i], trusted := []) && Holds(table, part)
    {
      var r := inp.roster[i];
      RemoteHolds(table, part, r);
      if r.fp !in table {
        table := table[r.fp := FromRemote(inp, r)];
      }
      assert inp.roster[..i + 1] == inp.roster[..i] + [r];
      part := part.(roster := inp.roster[..i + 1]);
    }
    assert inp.roster[..|inp.roster|] == inp.roster;
    for i := 0 to |inp.trusted|
      invariant part == inp.(trusted := inp.trusted[..i]) && Holds(table, part)
    {
      var p := inp.trusted[i];
      PairedHolds(table, part, p);
      if p.fp !in table {
        table := table[p.fp := FromPaired(inp, p)];
      }
      assert inp.trusted[..i + 1] == inp.trusted[..i] + [p];
      part := part.(trusted := inp.trusted[..i + 1]);
    }
    assert inp.trusted[..|inp.trusted|] == inp.trusted;
  }

  lemma NothingHolds(inp: Inputs)
    requires inp.local == [] && inp.roster == [] && inp.trusted == []
    ensures Holds(map[], inp)
  {
  }

  /** A table says of a fingerprint when it was last seen. */
  ghost predicate SeenAs(seen: map<string, nat>, ls: seq<Local>, fp: string) {
    var l := LastLocal(ls, fp);
    if fp in seen then l.Some? && l.value.elapsed == seen[fp] else l.None?
  }

  /** A table says of a fingerprint when it was paired. */
  ghost predicate PairedAs(at: map<string, nat>, ps: seq<Paired>, fp: string) {
    var p := LastPaired(ps, fp);
    if fp in at then p.Some? && p.value.pairedAt == at[fp] else p.None?
  }

  lemma SeenGrows(seen: map<string, nat>, ls: seq<Local>, d: Local, seen': map<string, nat>, ls': seq<Local>)
    requires (forall fp :: SeenAs(seen, ls, fp)) && seen' == seen[d.fp := d.elapsed] && ls' == ls + [d]
    ensures forall fp :: SeenAs(seen', ls', fp)
  {
    forall fp ensures SeenAs(seen', ls', fp) {
      assert ls'[..|ls|] == ls && SeenAs(seen, ls, fp);
    }
  }

  lemma PairedGrows(at: map<string, nat>, ps: seq<Paired>, p: Paired, at': map<string, nat>, ps': seq<Paired>)
    requires (forall fp :: PairedAs(at, ps, fp)) && at' == at[p.fp := p.pairedAt] && ps' == ps + [p]
    ensures forall fp :: PairedAs(at', ps', fp)
  {
    forall fp ensures PairedAs(at', ps', fp) {
      assert ps'[..|ps|] == ps && PairedAs(at, ps, fp);
    }
  }

  method LastSeen(ls: seq<Local>) returns (seen: map<string, nat>)
    ensures forall fp :: SeenAs(seen, ls, fp)
  {
    seen := map[];
    for i := 0 to |ls|
      invariant forall fp :: SeenAs(seen, ls[..i], fp)
    {
      assert ls[..i + 1] == ls[..i] + [ls[i]];
      SeenGrows(seen, ls[..i], ls[i], seen[ls[i].fp := ls[i].elapsed], ls[..i + 1]);
      seen := seen[ls[i].fp := ls[i].elapsed];
    }
    assert ls[..|ls|] == ls;
  }

  method PairedAt(ps: seq<Paired>) returns (at: map<string, nat>)
    ensures forall fp :: PairedAs(at, ps, fp)
  {
    at := map[];
    for i := 0 to |ps|
      invariant forall fp :: PairedAs(at, ps[..i], fp)
    {
      assert ps[..i + 1] == ps[..i] + [ps[i]];
      PairedGrows(at, ps[..i], ps[i], at[ps[i].fp := ps[i].pairedAt], ps[..i + 1]);
      at := at[ps[i].fp := ps[i].pairedAt];
    }
    assert ps[..|ps|] == ps;
  }

  /** The rows to hide, found in whatever order the table yields them. */
  method FindStale(inp: Inputs, table: map<string, Device>) returns (stale: set<string>)
    requires Holds(table, inp)
    ensures forall fp :: fp in stale <==> Hidden(inp, fp)
  {
    hide Entry, Stale;
    var seen := LastSeen(inp.local);
    var paired := PairedAt(inp.trusted);
    stale := {};
    var todo := table.Keys;
    HiddenAreListed(inp, table);
    while todo != {}
      invariant todo <= table.Keys && stale !! todo
      invariant forall fp :: fp in stale <==> Hidden(inp, fp) && fp !in todo
      decreases |todo|
    {
      var fp :| fp in todo;
      todo := todo - {fp};
      var d := table[fp];
      var isOld := if fp in seen then seen[fp] >= STALE_DUPLICATE_SECS
                   else fp in paired && paired[fp] > 0 && SatSub(inp.now, paired[fp]) >= STALE_DUPLICATE_SECS;
      StaleByTables(inp, seen, paired, fp);
      HiddenByTable(inp, table, fp);
      if !d.online && (exists o <- table.Keys :: table[o].fp != d.fp && table[o].name == d.name) && isOld {
        stale := stale + {fp};
      }
    }
  }

  lemma StaleByTables(inp: Inputs, seen: map<string, nat>, paired: map<string, nat>, fp: string)
    requires SeenAs(seen, inp.local, fp) && PairedAs(paired, inp.trusted, fp)
    ensures Stale(inp, fp) <==>
            if fp in seen then seen[fp] >= STALE_DUPLICATE_SECS
            else fp in paired && paired[fp] > 0 && SatSub(inp.now, paired[fp]) >= STALE_DUPLICATE_SECS
  {
  }

  lemma HiddenAreListed(inp: Inputs, table: map<string, Device>)
    requires Holds(table, inp)
    ensures forall fp :: Hidden(inp, fp) ==> fp in table
  {
    hide Entry, Stale, Known;
  }

  lemma HiddenByTable(inp: Inputs, table: map<string, Device>, fp: string)
    requires Holds(table, inp) && fp in table
    ensures Hidden(inp, fp) <==>
            && !table[fp].online && Stale(inp, fp)
            && exists o <- table.Keys :: table[o].fp != table[fp].fp && table[o].name == table[fp].name
  {
    hide Entry, Stale, Known;
    forall o: string ensures o in table <==> o in Known(inp) {
      EntryIffKnown(inp, o);
    }
    forall o | o in table ensures table[o].fp == o && Entry(inp, o) == Some(table[o]) {
      EntryIffKnown(inp, o);
    }
    if o :| o in Known(inp) && o != fp && Entry(inp, o).Some? && Entry(inp, o).value.name == table[fp].name {
      assert o in table.Keys && table[o].fp != table[fp].fp;
    }
  }

  /** Puts a device into its place. */
  method Insert(list: seq<Device>, d: Device) returns (list': seq<Device>)
    requires Sorted(list) && forall e <- list :: e.fp != d.fp
    ensures Sorted(list') && Elements(list') == Elements(list) + {d}
  {
    var k := 0;
    while k < |list| && Before(list[k], d)
      invariant k <= |list| && forall i | 0 <= i < k :: Before(list[i], d)
    {
      k := k + 1;
    }
    list' := list[..k] + [d] + list[k..];
    InsertedSorted(list, d, k);
  }

  lemma InsertedSorted(list: seq<Device>, d: Device, k: nat)
    requires Sorted(list) && k <= |list| && forall e <- list :: e.fp != d.fp
    requires (forall i | 0 <= i < k :: Before(list[i], d)) && (k < |list| ==> !Before(list[k], d))
    ensures var list' := list[..k] + [d] + list[k..]; Sorted(list') && Elements(list') == Elements(list) + {d}
  {
    var list' := list[..k] + [d] + list[k..];
    forall i | k <= i < |list| ensures Before(d, list[i]) {
      BeforeTotal(d, list[k]);
      if k < i {
        BeforeTransitive(d, list[k], list[i]);
      }
    }
    assert forall i | 0 <= i < |list'| :: list'[i] == if i < k then list[i] else if i == k then d else list[i - 1];
    forall e | e in Elements(list) + {d} ensures e in Elements(list') {
      if e != d {
        var i :| 0 <= i < |list| && list[i] == e;
        assert list'[if i < k then i else i + 1] == e;
      } else {
        assert list'[k] == d;
      }
    }
  }

  /** Lists the rows in the page's order, taking them from the table in whatever order it yields them. */
  method InOrder(table: map<string, Device>) returns (list: seq<Device>)
    requires forall fp <- table.Keys :: table[fp].fp == fp
    ensures Sorted(list) && Elements(list) == set fp | fp in table.Keys :: table[fp]
  {
    hide Sorted;
    list := [];
    var todo := table.Keys;
    assert Sorted(list) by {
      SortedEmpty();
    }
    while todo != {}
      invariant todo <= table.Keys && Sorted(list)
      invariant Elements(list) == set fp | fp in table.Keys - todo :: table[fp]
      decreases |todo|
    {
      var fp :| fp in todo;
      forall e | e in list ensures e.fp != fp {
        assert e in Elements(list);
      }
      todo := todo - {fp};
      list := Insert(list, table[fp]);
    }
  }

  lemma SortedEmpty()
    ensures Sorted([])
  {
  }

  /** The list of the visible devices, each once, in the page's order. */
  method MergeDevices(inp: Inputs) returns (list: seq<Device>)
    ensures Sorted(list) && Elements(list) == Visible(inp)
  {
    hide Entry, Hidden, Known, Sorted;
    var table := Collect(inp);
    var stale := FindStale(inp, table);
    forall fp | fp in table ensures table[fp].fp == fp {
      EntryIffKnown(inp, fp);
    }
    table := table - stale;
    list := InOrder(table);
    VisibleByTable(inp, table, stale);
  }

  lemma VisibleByTable(inp: Inputs, kept: map<string, Device>, stale: set<string>)
    requires forall fp :: fp in stale <==> Hidden(inp, fp)
    requires forall fp :: if fp in kept then Entry(inp, fp) == Some(kept[fp]) else Entry(inp, fp).None? || fp in stale
    requires kept.Keys !! stale
    ensures Visible(inp) == set fp | fp in kept.Keys :: kept[fp]
  {
    hide Entry, Hidden, Known;
    forall fp: string ensures fp in kept <==> fp in Known(inp) && Entry(inp, fp).Some? && !Hidden(inp, fp) {
      EntryIffKnown(inp, fp);
    }
  }

  // ----- What the page can rely on -----

  ghost predicate DistinctFps(inp: Inputs) {
    && (forall d <- inp.local, e <- inp.local :: d.fp == e.fp ==> d == e)
    && (forall r <- inp.roster, q <- inp.roster :: r.fp == q.fp ==> r == q)
    && (forall p <- inp.trusted, q <- inp.trusted :: p.fp == q.fp ==> p == q)
  }

  /** The same devices, listed in any order. */
  ghost predicate SameInputs(inp: Inputs, other: Inputs) {
    && (forall d :: d in inp.local <==> d in other.local)
    && (forall r :: r in inp.roster <==> r in other.roster)
    && (forall p :: p in inp.trusted <==> p in other.trusted)
    && other.connected == inp.connected && other.aliases == inp.aliases && other.now == inp.now
  }

  lemma LookupsAgree(inp: Inputs, other: Inputs, fp: string)
    requires DistinctFps(inp) && SameInputs(inp, other)
    ensures LastLocal(inp.local, fp) == LastLocal(other.local, fp)
    ensures FirstRemote(inp.roster, fp) == FirstRemote(other.roster, fp)
    ensures FirstPaired(inp.trusted, fp) == FirstPaired(other.trusted, fp)
    ensures LastPaired(inp.trusted, fp) == LastPaired(other.trusted, fp)
  {
    hide LastLocal, FirstRemote, FirstPaired, LastPaired;
    LocalFound(inp.local, fp);
    LocalFound(other.local, fp);
    RemoteFound(inp.roster, fp);
    RemoteFound(other.roster, fp);
    PairedFound(inp.trusted, fp);
    PairedFound(other.trusted, fp);
  }

  lemma EntriesAgree(inp: Inputs, other: Inputs, fp: string)
    requires DistinctFps(inp) && SameInputs(inp, other)
    ensures Entry(inp, fp) == Entry(other, fp) && Stale(inp, fp) == Stale(other, fp)
  {
    LookupsAgree(inp, other, fp);
  }

  /**
   One result: whatever the order of the inputs, and whatever order the tables inside yield their rows in,
   any two merges of the same devices give the same list.
   */
  lemma OneResult(inp: Inputs, other: Inputs, list: seq<Device>, list': seq<Device>)
    requires DistinctFps(inp) && SameInputs(inp, other)
    requires Sorted(list) && Elements(list) == Visible(inp)
    requires Sorted(list') && Elements(list') == Visible(other)
    ensures list == list'
  {
    hide Entry, Stale, Known;
    forall fp: string ensures Entry(inp, fp) == Entry(other, fp) && Stale(inp, fp) == Stale(other, fp)
                              && (fp in Known(inp) <==> fp in Known(other)) {
      EntriesAgree(inp, other, fp);
      EntryIffKnown(inp, fp);
      EntryIffKnown(other, fp);
    }
    assert Known(inp) == Known(other);
    forall fp: string ensures Hidden(inp, fp) == Hidden(other, fp) {
    }
    assert Visible(inp) == Visible(other);
    SortedUnique(list, list');
  }

  /** A device found locally is shown as such; else one on the roster as such; else a paired one as offline. */
  lemma LocalOverRosterOverTrusted(inp: Inputs, fp: string)
    requires DistinctFps(inp)
    ensures forall d <- inp.local :: d.fp == fp ==> Entry(inp, fp) == Some(FromLocal(inp, d))
    ensures (forall d <- inp.local :: d.fp != fp) ==>
              forall r <- inp.roster :: r.fp == fp ==> Entry(inp, fp) == Some(FromRemote(inp, r))
    ensures (forall d <- inp.local :: d.fp != fp) && (forall r <- inp.roster :: r.fp != fp) ==>
              forall p <- inp.trusted :: p.fp == fp ==> Entry(inp, fp) == Some(FromPaired(inp, p))
  {
    hide LastLocal, FirstRemote, FirstPaired, LastPaired, FromLocal, FromRemote, FromPaired;
    LocalFound(inp.local, fp);
    RemoteFound(inp.roster, fp);
    PairedFound(inp.trusted, fp);
  }

  /**
   The list has one row for each known fingerprint and no other, but for those that are offline, stale and
   share their shown name with another known one.
   */
  lemma OmittedOnlyIfStaleNamesake(inp: Inputs, list: seq<Device>, fp: string)
    requires Sorted(list) && Elements(list) == Visible(inp)
    ensures (exists d <- list :: d.fp == fp) <==> fp in Known(inp) && !Hidden(inp, fp)
    ensures forall i, j | 0 <= i < j < |list| :: list[i].fp != list[j].fp
  {
    hide Entry, Hidden, Known;
    EntryIffKnown(inp, fp);
    forall d | d in list ensures Entry(inp, d.fp) == Some(d) && d.fp in Known(inp) && !Hidden(inp, d.fp) {
      assert d in Visible(inp);
      var k :| k in Known(inp) && Entry(inp, k).Some? && !Hidden(inp, k) && Entry(inp, k).value == d;
      EntryIffKnown(inp, k);
    }
    if fp in Known(inp) && !Hidden(inp, fp) {
      assert Entry(inp, fp).value in Elements(list);
    }
    forall i, j | 0 <= i < j < |list| ensures list[i].fp != list[j].fp {
      BeforeTotal(list[i], list[j]);
      assert list[i] in list && list[j] in list;
    }
  }

  /**
   Each column of a listed row, read off the lists, which name a fingerprint once each: how it is shown
   depends on the first of the three that has it, and an alias that is not empty replaces its name.
   */
  lemma RowMeans(inp: Inputs, list: seq<Device>, d: Device)
    requires DistinctFps(inp) && Sorted(list) && Elements(list) == Visible(inp) && d in list
    ensures d.connected <==> d.fp in inp.connected
    ensures d.fp in inp.aliases && inp.aliases[d.fp] != "" ==> d.name == inp.aliases[d.fp]
    ensures forall l <- inp.local :: l.fp == d.fp ==>
              && d.addr == l.addr && !d.viaRelay && (d.online <==> l.elapsed < 30)
              && (d.fp !in inp.aliases || inp.aliases[d.fp] == "" ==> d.name == l.name)
    ensures (forall l <- inp.local :: l.fp != d.fp) ==>
              forall r <- inp.roster :: r.fp == d.fp ==>
                && d.addr == r.addr && d.viaRelay && d.online
                && (d.fp !in inp.aliases || inp.aliases[d.fp] == "" ==> d.name == r.name)
    ensures (forall l <- inp.local :: l.fp != d.fp) && (forall r <- inp.roster :: r.fp != d.fp) ==>
              && d.addr == "" && !d.viaRelay && !d.online
              && forall p <- inp.trusted :: p.fp == d.fp && (d.fp !in inp.aliases || inp.aliases[d.fp] == "") ==> d.name == p.name
  {
    assert d in Elements(list);
    ListedEntry(inp, d);
    hide Visible, Entry;
    EntryMeans(inp, d.fp);
  }

  lemma ListedEntry(inp: Inputs, d: Device)
    requires d in Visible(inp)
    ensures d.fp in Known(inp) && !Hidden(inp, d.fp) && Entry(inp, d.fp) == Some(d)
  {
    hide Entry, Hidden, Known;
    var k :| k in Known(inp) && Entry(inp, k).Some? && !Hidden(inp, k) && Entry(inp, k).value == d;
    EntryIffKnown(inp, k);
  }

  lemma EntryMeans(inp: Inputs, fp: string)
    requires DistinctFps(inp) && Entry(inp, fp).Some?
    ensures var d := Entry(inp, fp).value;
            var found, listed := exists l <- inp.local :: l.fp == fp, exists r <- inp.roster :: r.fp == fp;
            && d.fp == fp && (d.connected <==> fp in inp.connected)
            && (fp in inp.aliases && inp.aliases[fp] != "" ==> d.name == inp.aliases[fp])
            && (forall l <- inp.local :: l.fp == fp ==>
                  && d.addr == l.addr && !d.viaRelay && (d.online <==> l.elapsed < 30)
                  && (fp !in inp.aliases || inp.aliases[fp] == "" ==> d.name == l.name))
            && (!found ==> forall r <- inp.roster :: r.fp == fp ==>
                  && d.addr == r.addr && d.viaRelay && d.online
                  && (fp !in inp.aliases || inp.aliases[fp] == "" ==> d.name == r.name))
            && (!found && !listed ==>
                  && d.addr == "" && !d.viaRelay && !d.online
                  && forall p <- inp.trusted :: p.fp == fp && (fp !in inp.aliases || inp.aliases[fp] == "") ==> d.name == p.name)
  {
    LocalFound(inp.local, fp);
    RemoteFound(inp.roster, fp);
    PairedFound(inp.trusted, fp);
    hide LastLocal, FirstRemote, FirstPaired;
  }

  /**
   Who is left out, read off the lists: a device found locally if it was last seen a day ago or longer, one
   only paired if that is as long ago, and either only if another known fingerprint shows the same name; one
   that only the relay lists never.
   */
  lemma HiddenMeans(inp: Inputs, fp: string)
    requires DistinctFps(inp) && fp in Known(inp)
    ensures var found, listed := exists l <- inp.local :: l.fp == fp, exists r <- inp.roster :: r.fp == fp;
            var namesake := exists o <- Known(inp) :: o != fp && Entry(inp, o).Some? && Entry(inp, fp).Some? &&
                                                      Entry(inp, o).value.name == Entry(inp, fp).value.name;
            && (forall l <- inp.local :: l.fp == fp ==> (Hidden(inp, fp) <==> l.elapsed >= 86_400 && namesake))
            && (!found && listed ==> !Hidden(inp, fp))
            && (!found && !listed ==>
                  forall p <- inp.trusted :: p.fp == fp ==>
                    (Hidden(inp, fp) <==> p.pairedAt > 0 && inp.now >= p.pairedAt + 86_400 && namesake))
  {
    EntryIffKnown(inp, fp);
    EntryMeans(inp, fp);
    hide Entry, Known;
    LocalFound(inp.local, fp);
    PairedFound(inp.trusted, fp);
    hide LastLocal, LastPaired;
  }

  /** A string is less than another at the first character in which they differ, or by being its proper prefix. */
  lemma {:induction false} StrLessMeans(s: string, t: string) returns (k: nat)
    requires StrLess(s, t)
    ensures k <= |s| && k < |t| && s[..k] == t[..k] && (k == |s| || s[k] < t[k])
  {
    k := 0;
    if s != "" && s[0] == t[0] {
      k := StrLessMeans(s[1..], t[1..]);
      assert s[..k + 1] == [s[0]] + s[1..][..k] && t[..k + 1] == [t[0]] + t[1..][..k];
      k := k + 1;
    }
  }

  /** On the page the connected come first, then the online, each by name and then by fingerprint. */
  lemma PageOrder(list: seq<Device>, i: nat, j: nat)
    requires Sorted(list) && i < j < |list|
    ensures list[j].connected ==> list[i].connected
    ensures list[j].connected == list[i].connected && list[j].online ==> list[i].online
    ensures list[i].connected == list[j].connected && list[i].online == list[j].online ==>
              StrLess(list[i].name, list[j].name) || (list[i].name == list[j].name && StrLess(list[i].fp, list[j].fp))
  {
    assert Before(list[i], list[j]);
  }

  lemma OnePaired(p: Paired, fp: string)
    ensures FirstPaired([p], fp) == LastPaired([p], fp) == if p.fp == fp then Some(p) else None
  {
    assert [p][..0] == [];
    assert FirstPaired([], fp) == LastPaired([], fp) == None;
  }

  /** No namesake is sure to survive: two stale ones hide each other, and the page shows neither. */
  lemma TwoStaleHideEachOther(fp: string, fp': string, name: string, at: nat, now: nat)
    requires fp != fp' && 0 < at && now >= at + STALE_DUPLICATE_SECS
    ensures Visible(Inputs([], [], [Paired(fp, name, at), Paired(fp', name, at)], {}, map[], now)) == {}
  {
    var ps := [Paired(fp, name, at), Paired(fp', name, at)];
    var inp := Inputs([], [], ps, {}, map[], now);
    assert ps[..1] == [ps[0]];
    OnePaired(ps[0], fp);
    OnePaired(ps[0], fp');
    forall k | k in Known(inp) ensures Hidden(inp, k) {
      assert Entry(inp, fp) == Some(FromPaired(inp, ps[0])) && Entry(inp, fp') == Some(FromPaired(inp, ps[1]));
      assert LastPaired(ps, fp') == Some(ps[1]) && LastPaired(ps, fp) == LastPaired(ps[..1], fp) == Some(ps[0]);
      assert ps[0] in inp.trusted && ps[1] in inp.trusted;
      assert fp in Known(inp) && fp' in Known(inp);
      assert k == fp || k == fp';
      var o := if k == fp then fp' else fp;
      assert o in Known(inp) && o != k && Entry(inp, o).Some? && Entry(inp, o).value.name == Entry(inp, k).value.name;
    }
  }
}

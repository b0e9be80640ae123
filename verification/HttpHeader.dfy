/** A list of header fields with a mask that tells which kinds it holds. */
module HttpHeader {
  import opened Wrappers

  /** A registered kind of header field, or any other one. */
  datatype Id = Known(n: nat) | Other

  datatype Entry = Entry(id: Id, name: string, value: string)

  /** The registered header fields: their names, which of them are lists, which
    * are hop-by-hop, and which one is Vary. */
  datatype Table = Table(names: seq<string>, lists: set<nat>, hops: set<nat>, vary: nat)

  function Lower(s: string): string {
    seq(|s|, i requires 0 <= i < |s| => if 'A' <= s[i] <= 'Z' then (s[i] as int + 32) as char else s[i])
  }

  predicate SameName(a: string, b: string) {
    Lower(a) == Lower(b)
  }

  ghost predicate Distinct(t: Table) {
    && t.vary < |t.names|
    && forall i, j :: 0 <= i < j < |t.names| ==> !SameName(t.names[i], t.names[j])
  }

  /** The registered kind with a name, in any case. */
  function LookupFrom(t: Table, name: string, i: nat): (r: Option<nat>)
    ensures r.Some? ==> r.value < |t.names| && SameName(t.names[r.value], name)
    ensures r.None? ==> forall j :: i <= j < |t.names| ==> !SameName(t.names[j], name)
    decreases |t.names| - i
  {
    if i >= |t.names| then None
    else if SameName(t.names[i], name) then Some(i)
    else LookupFrom(t, name, i + 1)
  }

  function Lookup(t: Table, name: string): (r: Option<nat>)
    ensures r.Some? ==> r.value < |t.names| && SameName(t.names[r.value], name)
    ensures r.None? ==> forall j :: 0 <= j < |t.names| ==> !SameName(t.names[j], name)
  {
    LookupFrom(t, name, 0)
  }

  /** A field of a registered kind has the registered name. */
  ghost predicate Named(t: Table, e: Entry) {
    e.id.Known? ==> e.id.n < |t.names| && e.name == t.names[e.id.n]
  }

  ghost predicate AllNamed(t: Table, s: seq<Entry>) {
    forall e :: e in s ==> Named(t, e)
  }

  lemma LookupNamed(t: Table, e: Entry)
    requires Distinct(t) && Named(t, e) && e.id.Known?
    ensures Lookup(t, e.name) == Some(e.id.n)
  {
    hide SameName;
    var r := Lookup(t, e.name);
    SameNames(e.name, e.name, e.name);
    if r.Some? {
      SameNames(t.names[r.value], e.name, e.name);
    }
  }

  lemma SameNames(a: string, b: string, c: string)
    ensures SameName(a, a)
    ensures SameName(a, b) <==> SameName(b, a)
    ensures SameName(a, b) && SameName(b, c) ==> SameName(a, c)
  {
  }

  // --- Fields without gaps ---

  function Live(es: seq<Option<Entry>>): seq<Entry> {
    if es == [] then []
    else
      var rest := Live(es[..|es| - 1]);
      var last := es[|es| - 1];
      if last.Some? then rest + [last.value] else rest
  }

  function Kept(s: seq<Entry>, keep: Entry -> bool): seq<Entry> {
    if s == [] then []
    else
      var rest := Kept(s[..|s| - 1], keep);
      if keep(s[|s| - 1]) then rest + [s[|s| - 1]] else rest
  }

  function Ids(s: seq<Entry>): set<Id> {
    set e | e in s :: e.id
  }

  lemma LiveStep(es: seq<Option<Entry>>, e: Option<Entry>)
    ensures Live(es + [e]) == Live(es) + (if e.Some? then [e.value] else [])
  {
    assert (es + [e])[..|es|] == es;
  }

  lemma KeptStep(s: seq<Entry>, e: Entry, keep: Entry -> bool)
    ensures Kept(s + [e], keep) == Kept(s, keep) + (if keep(e) then [e] else [])
  {
    assert (s + [e])[..|s|] == s;
  }

  lemma {:induction false} KeptConcat(a: seq<Entry>, b: seq<Entry>, keep: Entry -> bool)
    ensures Kept(a + b, keep) == Kept(a, keep) + Kept(b, keep)
    decreases |b|
  {
    if b == [] {
      assert a + b == a;
    } else {
      KeptConcat(a, b[..|b| - 1], keep);
      assert (a + b)[..|a + b| - 1] == a + b[..|b| - 1];
    }
  }

  lemma {:induction false} KeptIn(s: seq<Entry>, keep: Entry -> bool)
    ensures forall e :: e in Kept(s, keep) <==> e in s && keep(e)
  {
    if s != [] {
      KeptIn(s[..|s| - 1], keep);
    }
  }

  function Both(f: Entry -> bool, g: Entry -> bool): Entry -> bool {
    (e: Entry) => f(e) && g(e)
  }

  lemma {:induction false} KeptTwice(s: seq<Entry>, f: Entry -> bool, g: Entry -> bool)
    ensures Kept(Kept(s, f), g) == Kept(s, Both(f, g))
  {
    if s != [] {
      KeptTwice(s[..|s| - 1], f, g);
      KeptStep(Kept(s[..|s| - 1], f), s[|s| - 1], g);
    }
  }

  lemma {:induction false} KeptSame(s: seq<Entry>, f: Entry -> bool, g: Entry -> bool)
    requires forall e :: e in s ==> f(e) == g(e)
    ensures Kept(s, f) == Kept(s, g)
  {
    if s != [] {
      KeptSame(s[..|s| - 1], f, g);
    }
  }

  // --- The container ---

  class HttpHeader {
    const table: Table
    var entries: seq<Option<Entry>>
    var mask: set<Id>

    ghost function Fields(): seq<Entry>
      reads this
    {
      Live(entries)
    }

    /** The mask has a bit exactly for every kind of field there is. */
    ghost predicate Indexed()
      reads this
    {
      mask == Ids(Fields())
    }

    ghost predicate Valid()
      reads this
    {
      Distinct(table) && AllNamed(table, Fields()) && Indexed()
    }

    constructor (table: Table)
      requires Distinct(table)
      ensures Valid() && entries == [] && this.table == table
    {
      this.table, entries, mask := table, [], {};
    }

    method Clean()
      requires Valid()
      modifies this
      ensures Valid() && entries == []
    {
      entries, mask := [], {};
    }

    method AddEntry(e: Entry)
      requires Valid() && Named(table, e)
      modifies this
      ensures Valid() && Fields() == old(Fields()) + [e]
    {
      if e.id !in mask {
        mask := mask + {e.id};
      }
      LiveStep(entries, Some(e));
      IdsStep(Fields(), e);
      entries := entries + [Some(e)];
    }

    /** Leaves a gap; the mask is for the caller to correct. */
    method DelAt(pos: nat)
      requires pos < |entries| && entries[pos].Some?
      modifies this`entries
      ensures entries == old(entries)[pos := None]
    {
      entries := entries[pos := None];
    }

    method Compact()
      requires Valid()
      modifies this`entries
      ensures Valid() && Fields() == old(Fields()) && forall e :: e in entries ==> e.Some?
    {
      var packed := [];
      for i := 0 to |entries|
        invariant entries == old(entries) && Live(packed) == Live(entries[..i]) && forall e :: e in packed ==> e.Some?
      {
        assert entries[..i + 1] == entries[..i] + [entries[i]];
        LiveStep(entries[..i], entries[i]);
        LiveStep(packed, entries[i]);
        if entries[i].Some? {
          packed := packed + [entries[i]];
        }
      }
      assert entries[..|entries|] == entries;
      entries := packed;
    }

    method RefreshMask()
      modifies this`mask
      ensures Indexed()
    {
      mask := {};
      for i := 0 to |entries|
        invariant entries == old(entries) && mask == Ids(Live(entries[..i]))
      {
        assert entries[..i + 1] == entries[..i] + [entries[i]];
        LiveStep(entries[..i], entries[i]);
        if entries[i].Some? {
          IdsStep(Live(entries[..i]), entries[i].value);
          mask := mask + {entries[i].value.id};
        }
      }
      assert entries[..|entries|] == entries;
    }

    /** Leaves gaps in place of fields; the mask is for the caller to correct. */
    method DeleteUnless(keep: Entry -> bool) returns (count: nat)
      modifies this`entries
      ensures Fields() == Kept(old(Fields()), keep) && count == |old(Fields())| - |Fields()|
    {
      hide Live, Kept, Gapped;
      ghost var es := entries;
      count := 0;
      NothingGapped(es, keep);
      for pos := 0 to |entries|
        invariant entries == Gapped(es[..pos], keep) + es[pos..] && |entries| == |es|
        invariant count == |Live(es[..pos])| - |Kept(Live(es[..pos]), keep)|
      {
        GappedStep(es, keep, pos);
        LiveCount(es, keep, pos);
        if entries[pos].Some? && !keep(entries[pos].value) {
          DelAt(pos);
          count := count + 1;
        }
      }
      assert es[..|es|] == es && entries == Gapped(es, keep) + es[|es|..] == Gapped(es, keep);
      GappedLive(es, keep);
    }

    /** Deletes the fields of a registered kind; returns how many. */
    method DelById(id: nat) returns (count: nat)
      requires Valid() && id < |table.names|
      modifies this
      ensures Valid() && Fields() == Kept(old(Fields()), NotId(Known(id)))
      ensures count == |old(Fields())| - |Fields()| && (count > 0 <==> Known(id) in old(mask))
    {
      hide Live, Kept;
      ghost var s := Fields();
      KeptSize(s, NotId(Known(id)));
      FieldsLeft(table, s, NotId(Known(id)));
      WithoutId(s, Known(id));
      if Known(id) !in mask {
        KeptAll(s, NotId(Known(id)));
        return 0;
      }
      count := DeleteUnless(NotId(Known(id)));
      mask := mask - {Known(id)};
    }

    /** Deletes the fields with a name, in any case. */
    method DelByName(name: string) returns (count: nat)
      requires Valid()
      modifies this
      ensures Valid() && Fields() == Kept(old(Fields()), NotNamed(name))
      ensures count == |old(Fields())| - |Fields()|
    {
      hide Live, Kept, Gapped;
      var keep := NotNamed(name);
      ghost var es := entries;
      FieldsLeft(table, Fields(), keep);
      count, mask := 0, {};
      NothingGapped(es, keep);
      for pos := 0 to |entries|
        invariant entries == Gapped(es[..pos], keep) + es[pos..] && |entries| == |es|
        invariant count == |Live(es[..pos])| - |Kept(Live(es[..pos]), keep)|
        invariant mask == Ids(Kept(Live(es[..pos]), keep))
      {
        GappedStep(es, keep, pos);
        LiveCount(es, keep, pos);
        if entries[pos].Some? {
          if !keep(entries[pos].value) {
            DelAt(pos);
            count := count + 1;
          } else {
            IdsStep(Kept(Live(es[..pos]), keep), entries[pos].value);
            mask := mask + {entries[pos].value.id};
          }
        }
      }
      assert es[..|es|] == es && entries == Gapped(es, keep) + es[|es|..] == Gapped(es, keep);
      GappedLive(es, keep);
    }

    /** The first field of a kind that is not a list. The search always ends
      * with a field: the mask is right. */
    method FindEntry(id: nat) returns (r: Option<Entry>)
      requires Valid() && id < |table.names| && id !in table.lists
      ensures r.None? <==> OfKind(Fields(), Known(id)) == []
      ensures r.Some? ==> r.value == OfKind(Fields(), Known(id))[0]
    {
      hide Live, Kept;
      KindPresent(Fields(), Known(id));
      if Known(id) !in mask {
        return None;
      }
      ghost var j := LiveHas(entries, Known(id));
      NothingGapped(entries, IsId(Known(id)));
      var i := 0;
      while !(entries[i].Some? && entries[i].value.id == Known(id))
        invariant i <= j && OfKind(Live(entries[..i]), Known(id)) == []
        decreases |entries| - i
      {
        LiveCount(entries, IsId(Known(id)), i);
        i := i + 1;
      }
      FirstOfKind(entries, Known(id), i);
      return Some(entries[i].value);
    }

    /** The values of the fields of a kind, as one list. */
    method GetList(id: nat) returns (s: string)
      requires Valid() && id < |table.names| && id in table.lists
      ensures s == Joined(Texts(OfKind(Fields(), Known(id))))
    {
      hide Live, Kept;
      KindPresent(Fields(), Known(id));
      s := "";
      if Known(id) !in mask {
        return;
      }
      NothingGapped(entries, IsId(Known(id)));
      for i := 0 to |entries|
        invariant s == Joined(Texts(OfKind(Live(entries[..i]), Known(id))))
      {
        LiveCount(entries, IsId(Known(id)), i);
        if entries[i].Some? && entries[i].value.id == Known(id) {
          TextsStep(OfKind(Live(entries[..i]), Known(id)), entries[i].value);
          s := ListAdd(s, entries[i].value.value);
        }
      }
      assert entries[..|entries|] == entries;
    }

    /** The value under a name, whether the name is registered or not. */
    method HasNamed(name: string) returns (r: Option<string>)
      requires Valid()
      ensures r == ByName(table, Fields(), name)
    {
      hide Live, Kept;
      var id := Lookup(table, name);
      if id.Some? && Known(id.value) in mask {
        KindPresent(Fields(), Known(id.value));
        if id.value in table.lists {
          var s := GetList(id.value);
          return Some(s);
        }
        var e := FindEntry(id.value);
        return Some(e.value.value);
      }
      if id.Some? {
        KindPresent(Fields(), Known(id.value));
      }
      var found, s := false, "";
      NothingGapped(entries, IsOther(name));
      for i := 0 to |entries|
        invariant found <==> Kept(Live(entries[..i]), IsOther(name)) != []
        invariant s == Joined(Texts(Kept(Live(entries[..i]), IsOther(name))))
      {
        LiveCount(entries, IsOther(name), i);
        if entries[i].Some? && entries[i].value.id == Other && SameName(entries[i].value.name, name) {
          TextsStep(Kept(Live(entries[..i]), IsOther(name)), entries[i].value);
          found := true;
          s := ListAdd(s, entries[i].value.value);
        }
      }
      assert entries[..|entries|] == entries;
      return if found then Some(s) else None;
    }

    /** Gives a kind one field with a value: changes the first field there is
      * and deletes the others, or adds one. */
    method UpdateOrAddStr(id: nat, newValue: string)
      requires Valid() && id < |table.names|
      modifies this
      ensures Valid() && OfKind(Fields(), Known(id)) == [Entry(Known(id), table.names[id], newValue)]
      ensures Kept(Fields(), NotId(Known(id))) == Kept(old(Fields()), NotId(Known(id)))
    {
      hide Live, Kept;
      var e := Entry(Known(id), table.names[id], newValue);
      KindPresent(Fields(), Known(id));
      if Known(id) !in mask {
        KeptStep(Fields(), e, IsId(Known(id)));
        KeptStep(Fields(), e, NotId(Known(id)));
        AddEntry(e);
        return;
      }
      ghost var es := entries;
      var found := false;
      NothingGapped(es, IsId(Known(id)));
      NothingGapped(es, NotId(Known(id)));
      for i := 0 to |entries|
        invariant |entries| == |es| && entries[i..] == es[i..] && mask == old(mask)
        invariant found <==> OfKind(Live(es[..i]), Known(id)) != []
        invariant OfKind(Live(entries[..i]), Known(id)) == if found then [e] else []
        invariant Kept(Live(entries[..i]), NotId(Known(id))) == Kept(Live(es[..i]), NotId(Known(id)))
      {
        ghost var was := entries;
        assert entries[i] == entries[i..][0] == es[i];
        if entries[i].Some? && entries[i].value.id == Known(id) {
          NamedAt(table, es, i);
          entries := entries[i := if found then None else Some(entries[i].value.(value := newValue))];
          found := true;
        }
        assert entries[..i] == was[..i];
        LiveCount(es, IsId(Known(id)), i);
        LiveCount(es, NotId(Known(id)), i);
        LiveCount(entries, IsId(Known(id)), i);
        LiveCount(entries, NotId(Known(id)), i);
      }
      assert es[..|es|] == es && entries[..|entries|] == entries;
      SyncedValid(table, Live(es), Live(entries), id, e);
    }

    /** Adds copies of all fields of another header. */
    method Append(src: HttpHeader)
      requires Valid() && src.Valid() && src != this && src.table == table
      modifies this
      ensures Valid() && Fields() == old(Fields()) + src.Fields()
    {
      hide Live, Kept;
      NothingGapped(src.entries, IsId(Other));
      for i := 0 to |src.entries|
        invariant Valid() && src.Valid() && Fields() == old(Fields()) + Live(src.entries[..i])
      {
        LiveCount(src.entries, IsId(Other), i);
        if src.entries[i].Some? {
          NamedAt(table, src.entries, i);
          AddEntry(src.entries[i].value);
        }
      }
      assert src.entries[..|src.entries|] == src.entries;
    }

    /** Whether a fresh header has news: all but its Vary fields count. */
    method NeedUpdate(newer: HttpHeader) returns (r: bool)
      requires Valid() && newer.Valid() && newer.table == table
      ensures r <==> Differs(table, Fields(), newer.Fields())
    {
      hide Live, Kept, ByName;
      NothingGapped(newer.entries, Updates(table));
      for i := 0 to |newer.entries|
        invariant NoneDiffers(table, Fields(), newer.Fields(), Live(newer.entries[..i]))
      {
        LiveCount(newer.entries, Updates(table), i);
        if newer.entries[i].Some? && Updates(table)(newer.entries[i].value) {
          InLive(newer.entries, i);
          var mine := HasNamed(newer.entries[i].value.name);
          var theirs := newer.HasNamed(newer.entries[i].value.name);
          PresentByName(table, newer.Fields(), newer.entries[i].value);
          if mine.None? || mine.value != (if theirs.Some? then theirs.value else "") {
            return true;
          }
        }
      }
      assert newer.entries[..|newer.entries|] == newer.entries;
      return false;
    }

    lemma EntryNamed(i: nat)
      requires Valid() && i < |entries| && entries[i].Some?
      ensures Named(table, entries[i].value)
    {
      NamedAt(table, entries, i);
    }

    /** Replaces fields by those of a fresh header, except Vary. */
    method Update(newer: HttpHeader)
      requires Valid() && newer.Valid() && newer != this && newer.table == table
      modifies this
      ensures Valid() && Fields() == Updated(table, old(Fields()), newer.Fields())
    {
      hide Valid, Kept;
      DeleteReplaced(newer);
      AddUpdates(newer);
    }

    /** Deletes the fields that a field of a fresh header replaces. */
    method DeleteKind(e: Entry)
      requires Valid() && (e.id.Known? ==> e.id.n < |table.names|)
      modifies this
      ensures Valid() && Fields() == Kept(old(Fields()), if e.id.Known? then NotId(e.id) else NotNamed(e.name))
    {
      hide Valid, Kept;
      if e.id.Known? {
        var _ := DelById(e.id.n);
      } else {
        var _ := DelByName(e.name);
      }
    }

    /** Deletes the fields that a fresh header replaces. */
    method DeleteReplaced(newer: HttpHeader)
      requires Valid() && newer.Valid() && newer != this && newer.table == table
      modifies this
      ensures Valid() && Fields() == Kept(old(Fields()), NotReplaced(Kept(newer.Fields(), Updates(table))))
    {
      hide Live, Kept, Valid;
      ghost var s := Fields();
      NothingGapped(newer.entries, Updates(table));
      NoneReplaced(s);
      for i := 0 to |newer.entries|
        invariant Valid() && newer.Valid()
        invariant Fields() == Kept(s, NotReplaced(Kept(Live(newer.entries[..i]), Updates(table))))
      {
        LiveCount(newer.entries, Updates(table), i);
        if newer.entries[i].Some? && Updates(table)(newer.entries[i].value) {
          newer.EntryNamed(i);
          OneReplaced(s, Kept(Live(newer.entries[..i]), Updates(table)), newer.entries[i].value);
          DeleteKind(newer.entries[i].value);
        }
      }
      assert newer.entries[..|newer.entries|] == newer.entries;
    }

    /** Adds the fields of a fresh header, except Vary. */
    method AddUpdates(newer: HttpHeader)
      requires Valid() && newer.Valid() && newer != this && newer.table == table
      modifies this
      ensures Valid() && Fields() == old(Fields()) + Kept(newer.Fields(), Updates(table))
    {
      hide Live, Kept, Valid;
      NothingGapped(newer.entries, Updates(table));
      for i := 0 to |newer.entries|
        invariant Valid() && newer.Valid() && Fields() == old(Fields()) + Kept(Live(newer.entries[..i]), Updates(table))
      {
        LiveCount(newer.entries, Updates(table), i);
        if newer.entries[i].Some? && Updates(table)(newer.entries[i].value) {
          newer.EntryNamed(i);
          AddEntry(newer.entries[i].value);
        }
      }
      assert newer.entries[..|newer.entries|] == newer.entries;
    }

    /** Deletes the fields that a Connection field names. */
    method RemoveConnectionHeaderEntries(connection: nat, isMember: (string, string) -> bool)
      requires Valid() && connection < |table.names| && connection in table.lists
      modifies this
      ensures Valid() && Fields() == WithoutNominated(old(Fields()), connection, isMember)
    {
      hide Live, Kept;
      KindPresent(Fields(), Known(connection));
      if Known(connection) in mask {
        var list := GetList(connection);
        FieldsLeft(table, Fields(), NotMember(list, isMember));
        KeptSize(Fields(), NotMember(list, isMember));
        var deleted := DeleteUnless(NotMember(list, isMember));
        if deleted > 0 {
          RefreshMask();
        } else {
          KeptAll(old(Fields()), NotMember(list, isMember));
        }
      }
    }

    /** Deletes a field if it concerns only this connection. */
    method DeleteHop(ghost es: seq<Option<Entry>>, ghost was: set<Id>, pos: nat)
      requires pos < |entries| == |es| && entries == Gapped(es[..pos], NotHop(table)) + es[pos..]
      requires mask == was - Ids(Kept(Live(es[..pos]), IsHop(table)))
      modifies this`entries, this`mask
      ensures |entries| == |es| && entries == Gapped(es[..pos + 1], NotHop(table)) + es[pos + 1..]
      ensures mask == was - Ids(Kept(Live(es[..pos + 1]), IsHop(table)))
    {
      hide Live, Kept, Gapped, Ids;
      GappedStep(es, NotHop(table), pos);
      LiveCount(es, IsHop(table), pos);
      if entries[pos].Some? && !NotHop(table)(entries[pos].value) {
        IdsStep(Kept(Live(es[..pos]), IsHop(table)), entries[pos].value);
        mask := mask - {entries[pos].value.id};
        DelAt(pos);
      }
    }

    /** Deletes the fields that concern only this connection. */
    method RemoveHopByHopEntries(connection: nat, isMember: (string, string) -> bool)
      requires Valid() && connection < |table.names| && connection in table.lists
      modifies this
      ensures Valid()
      ensures Fields() == Kept(WithoutNominated(old(Fields()), connection, isMember), NotHop(table))
    {
      hide Live, Kept, Gapped;
      RemoveConnectionHeaderEntries(connection, isMember);
      var keep := NotHop(table);
      ghost var es, was := entries, mask;
      FieldsLeft(table, Fields(), keep);
      WithoutHops(table, Fields());
      NothingGapped(es, keep);
      NothingGapped(es, IsHop(table));
      for pos := 0 to |entries|
        invariant entries == Gapped(es[..pos], keep) + es[pos..] && |entries| == |es|
        invariant mask == was - Ids(Kept(Live(es[..pos]), IsHop(table)))
      {
        DeleteHop(es, was, pos);
      }
      assert es[..|es|] == es && entries == Gapped(es, keep) + es[|es|..] == Gapped(es, keep);
      GappedLive(es, keep);
    }
  }

  function NotMember(list: string, isMember: (string, string) -> bool): Entry -> bool {
    (e: Entry) => !isMember(list, e.name)
  }

  function IsHop(t: Table): Entry -> bool {
    (e: Entry) => e.id.Known? && e.id.n in t.hops
  }

  function NotHop(t: Table): Entry -> bool {
    (e: Entry) => !(e.id.Known? && e.id.n in t.hops)
  }

  /** Fields without those that the Connection fields list. */
  function WithoutNominated(s: seq<Entry>, connection: nat, isMember: (string, string) -> bool): seq<Entry> {
    if OfKind(s, Known(connection)) == [] then s
    else Kept(s, NotMember(Joined(Texts(OfKind(s, Known(connection)))), isMember))
  }

  /** Kinds are hop-by-hop or not as a whole. */
  lemma WithoutHops(t: Table, s: seq<Entry>)
    ensures Ids(Kept(s, NotHop(t))) == Ids(s) - Ids(Kept(s, IsHop(t)))
  {
    KeptIn(s, NotHop(t));
    KeptIn(s, IsHop(t));
    hide Kept;
    forall e | e in s ensures e.id in Ids(Kept(s, NotHop(t))) <==> NotHop(t)(e) {
      if NotHop(t)(e) {
        assert e in Kept(s, NotHop(t));
      }
    }
    forall e | e in s ensures e.id in Ids(Kept(s, IsHop(t))) <==> IsHop(t)(e) {
      if IsHop(t)(e) {
        assert e in Kept(s, IsHop(t));
      }
    }
  }

  /** Fields that an update takes from a fresh header. */
  function Updates(t: Table): Entry -> bool {
    (e: Entry) => e.id != Known(t.vary)
  }

  predicate Replaces(f: Entry, e: Entry) {
    if f.id.Known? then e.id == f.id else SameName(e.name, f.name)
  }

  function NotReplaced(fs: seq<Entry>): Entry -> bool {
    (e: Entry) => forall f :: f in fs ==> !Replaces(f, e)
  }

  /** The fields after an update. */
  function Updated(t: Table, s: seq<Entry>, fs: seq<Entry>): seq<Entry> {
    var news := Kept(fs, Updates(t));
    Kept(s, NotReplaced(news)) + news
  }

  /** A field of a fresh header, other than Vary, does not have the same value. */
  ghost predicate Differs(t: Table, s: seq<Entry>, fs: seq<Entry>) {
    exists f :: f in fs && f.id != Known(t.vary) && ByName(t, s, f.name) != ByName(t, fs, f.name)
  }

  ghost predicate NoneDiffers(t: Table, s: seq<Entry>, fs: seq<Entry>, some: seq<Entry>) {
    forall f :: f in some && f.id != Known(t.vary) ==> ByName(t, s, f.name) == ByName(t, fs, f.name)
  }

  lemma PresentByName(t: Table, s: seq<Entry>, e: Entry)
    requires Distinct(t) && Named(t, e) && e in s
    ensures ByName(t, s, e.name).Some?
  {
    if e.id.Known? {
      LookupNamed(t, e);
      KindPresent(s, e.id);
    } else {
      KeptIn(s, IsOther(e.name));
      SameNames(e.name, e.name, e.name);
      hide SameName;
      assert e in Kept(s, IsOther(e.name));
    }
  }

  lemma NoneReplaced(s: seq<Entry>)
    ensures Kept(s, NotReplaced([])) == s
  {
    KeptAll(s, NotReplaced([]));
  }

  lemma ReplacedStep(fs: seq<Entry>, f: Entry, e: Entry)
    ensures NotReplaced(fs + [f])(e) <==> NotReplaced(fs)(e) && !Replaces(f, e)
  {
    assert forall x :: x in fs + [f] <==> x in fs || x == f;
  }

  lemma OneReplaced(s: seq<Entry>, fs: seq<Entry>, f: Entry)
    ensures f.id.Known? ==> Kept(Kept(s, NotReplaced(fs)), NotId(f.id)) == Kept(s, NotReplaced(fs + [f]))
    ensures f.id.Other? ==> Kept(Kept(s, NotReplaced(fs)), NotNamed(f.name)) == Kept(s, NotReplaced(fs + [f]))
  {
    hide NotReplaced, Kept;
    var g := if f.id.Known? then NotId(f.id) else NotNamed(f.name);
    KeptTwice(s, NotReplaced(fs), g);
    forall e | e in s ensures Both(NotReplaced(fs), g)(e) == NotReplaced(fs + [f])(e) {
      ReplacedStep(fs, f, e);
    }
    KeptSame(s, Both(NotReplaced(fs), g), NotReplaced(fs + [f]));
  }

  // --- After an update ---

  lemma {:induction false} KeptNone(s: seq<Entry>, keep: Entry -> bool)
    requires forall e :: e in s ==> !keep(e)
    ensures Kept(s, keep) == []
  {
    if s != [] {
      KeptNone(s[..|s| - 1], keep);
    }
  }

  /** If all old fields of a sort are replaced, the new ones are all there are. */
  lemma OnlyNews(t: Table, s: seq<Entry>, fs: seq<Entry>, sort: Entry -> bool)
    requires forall e :: e in s && sort(e) ==> exists f :: f in Kept(fs, Updates(t)) && Replaces(f, e)
    ensures Kept(Updated(t, s, fs), sort) == Kept(fs, Both(Updates(t), sort))
  {
    hide Kept;
    var news := Kept(fs, Updates(t));
    KeptConcat(Kept(s, NotReplaced(news)), news, sort);
    KeptTwice(fs, Updates(t), sort);
    KeptTwice(s, NotReplaced(news), sort);
    KeptNone(s, Both(NotReplaced(news), sort));
  }

  lemma KindAfter(t: Table, s: seq<Entry>, fs: seq<Entry>, i: nat, f: Entry)
    requires AllNamed(t, s) && i < |t.names| && f in fs && f.id != Known(t.vary)
    requires f.id == Known(i) || (f.id == Other && SameName(f.name, t.names[i]))
    ensures OfKind(Updated(t, s, fs), Known(i)) == if i == t.vary then [] else OfKind(fs, Known(i))
  {
    hide Kept, Updated;
    KeptIn(fs, Updates(t));
    SameNames(f.name, t.names[i], f.name);
    assert f in Kept(fs, Updates(t));
    assert forall e :: e in s && IsId(Known(i))(e) ==> Replaces(f, e);
    OnlyNews(t, s, fs, IsId(Known(i)));
    if i == t.vary {
      KeptNone(fs, Both(Updates(t), IsId(Known(i))));
    } else {
      KeptSame(fs, Both(Updates(t), IsId(Known(i))), IsId(Known(i)));
    }
  }

  lemma OtherAfter(t: Table, s: seq<Entry>, fs: seq<Entry>, f: Entry)
    requires f in fs && f.id == Other
    ensures Kept(Updated(t, s, fs), IsOther(f.name)) == Kept(fs, IsOther(f.name))
  {
    hide Kept, Updated, SameName;
    KeptIn(fs, Updates(t));
    assert f in Kept(fs, Updates(t));
    assert forall e :: e in s && IsOther(f.name)(e) ==> Replaces(f, e);
    OnlyNews(t, s, fs, IsOther(f.name));
    KeptSame(fs, Both(Updates(t), IsOther(f.name)), IsOther(f.name));
  }

  /** A fresh header spells Vary both as a registered and as an unregistered
    * field, with different values. */
  ghost predicate TwoVaries(t: Table, fs: seq<Entry>) {
    exists f :: f in fs && f.id == Other && Lookup(t, f.name) == Some(t.vary) && OfKind(fs, Known(t.vary)) != []
      && ByName(t, fs, f.name) != Some(Joined(Texts(Kept(fs, IsOther(f.name)))))
  }

  lemma SameAfter(t: Table, s: seq<Entry>, fs: seq<Entry>, f: Entry)
    requires Distinct(t) && AllNamed(t, s) && AllNamed(t, fs) && f in fs && f.id != Known(t.vary)
    ensures ByName(t, Updated(t, s, fs), f.name) != ByName(t, fs, f.name) <==>
      && f.id == Other && Lookup(t, f.name) == Some(t.vary) && OfKind(fs, Known(t.vary)) != []
      && ByName(t, fs, f.name) != Some(Joined(Texts(Kept(fs, IsOther(f.name)))))
  {
    hide Kept, Updated, SameName, Texts, Joined;
    var id := Lookup(t, f.name);
    if f.id.Known? {
      LookupNamed(t, f);
      KindAfter(t, s, fs, f.id.n, f);
      KindPresent(fs, f.id);
    } else {
      OtherAfter(t, s, fs, f);
      KeptIn(fs, IsOther(f.name));
      SameNames(f.name, f.name, f.name);
      assert f in Kept(fs, IsOther(f.name));
      if id.Some? {
        SameNames(f.name, t.names[id.value], f.name);
        KindAfter(t, s, fs, id.value, f);
      }
    }
  }

  /** After an update there is nothing to update, unless the fresh header has
    * two different Vary fields of which only one is registered. */
  lemma UpdateSettles(t: Table, s: seq<Entry>, fs: seq<Entry>)
    requires Distinct(t) && AllNamed(t, s) && AllNamed(t, fs)
    ensures Differs(t, Updated(t, s, fs), fs) <==> TwoVaries(t, fs)
  {
    hide ByName, Updated, Kept, Lookup, Joined, Texts;
    forall f | f in fs && f.id != Known(t.vary)
      ensures ByName(t, Updated(t, s, fs), f.name) != ByName(t, fs, f.name) <==>
        && f.id == Other && Lookup(t, f.name) == Some(t.vary) && OfKind(fs, Known(t.vary)) != []
        && ByName(t, fs, f.name) != Some(Joined(Texts(Kept(fs, IsOther(f.name)))))
    {
      SameAfter(t, s, fs, f);
    }
  }

  /** Two spellings of Vary: the update keeps only the unregistered one. */
  lemma TwoVariesExample(t: Table)
    requires Distinct(t)
    ensures var fs := [Entry(Known(t.vary), t.names[t.vary], "a"), Entry(Other, t.names[t.vary], "b")];
      AllNamed(t, fs) && TwoVaries(t, fs) && Differs(t, Updated(t, [], fs), fs)
  {
    var name := t.names[t.vary];
    var e, f := Entry(Known(t.vary), name, "a"), Entry(Other, name, "b");
    var fs := [e, f];
    LookupNamed(t, e);
    KeptStep([e], f, IsId(Known(t.vary)));
    KeptStep([], e, IsId(Known(t.vary)));
    KeptStep([e], f, IsOther(name));
    KeptStep([], e, IsOther(name));
    assert [] + [e] == [e] && [e] + [f] == fs;
    assert OfKind(fs, Known(t.vary)) == [e] && Kept(fs, IsOther(name)) == [f];
    assert Texts([e]) == ["a"] && Joined(["a"]) == "a";
    assert Texts([f]) == ["b"] && Joined(["b"]) == "b";
    assert ByName(t, fs, name) == Some("a");
    assert f in fs;
    UpdateSettles(t, [], fs);
  }

  lemma {:induction false} InLive(es: seq<Option<Entry>>, i: nat)
    requires i < |es| && es[i].Some?
    ensures es[i].value in Live(es)
  {
    if i < |es| - 1 {
      InLive(es[..|es| - 1], i);
    }
  }

  lemma NamedAt(t: Table, es: seq<Option<Entry>>, i: nat)
    requires AllNamed(t, Live(es)) && i < |es| && es[i].Some?
    ensures Named(t, es[i].value)
  {
    InLive(es, i);
  }

  lemma SyncedValid(t: Table, was: seq<Entry>, now: seq<Entry>, id: nat, e: Entry)
    requires AllNamed(t, was) && Named(t, e) && e.id == Known(id)
    requires OfKind(was, Known(id)) != [] && OfKind(now, Known(id)) == [e]
    requires Kept(now, NotId(Known(id))) == Kept(was, NotId(Known(id)))
    ensures AllNamed(t, now) && Ids(now) == Ids(was)
  {
    KeptIn(was, NotId(Known(id)));
    KeptIn(now, NotId(Known(id)));
    KeptIn(was, IsId(Known(id)));
    KeptIn(now, IsId(Known(id)));
    hide Kept;
    assert e in OfKind(now, Known(id)) && OfKind(was, Known(id))[0] in OfKind(was, Known(id));
    forall x | x in now ensures Named(t, x) && x.id in Ids(was) {
      if x.id == Known(id) {
        assert x in OfKind(now, Known(id));
      } else {
        assert x in Kept(now, NotId(Known(id)));
      }
    }
    forall x | x in was ensures x.id in Ids(now) {
      if x.id != Known(id) {
        assert x in Kept(was, NotId(Known(id)));
      }
    }
  }

  function IsId(id: Id): Entry -> bool {
    (e: Entry) => e.id == id
  }

  /** Unregistered fields with a name, in any case. */
  function IsOther(name: string): Entry -> bool {
    (e: Entry) => e.id == Other && SameName(e.name, name)
  }

  function OfKind(s: seq<Entry>, id: Id): seq<Entry> {
    Kept(s, IsId(id))
  }

  function Texts(s: seq<Entry>): seq<string> {
    seq(|s|, i requires 0 <= i < |s| => s[i].value)
  }

  /** One more item at the end of a list; an empty list needs no comma. */
  function ListAdd(s: string, item: string): string {
    if s == "" then item else s + ", " + item
  }

  function Joined(items: seq<string>): string {
    if items == [] then "" else ListAdd(Joined(items[..|items| - 1]), items[|items| - 1])
  }

  /** The value of the fields under a name: that of the registered kind with the
    * name if there is one, else that of the unregistered fields. */
  function ByName(t: Table, s: seq<Entry>, name: string): Option<string> {
    var id := Lookup(t, name);
    if id.Some? && OfKind(s, Known(id.value)) != [] then
      var fields := OfKind(s, Known(id.value));
      Some(if id.value in t.lists then Joined(Texts(fields)) else fields[0].value)
    else if Kept(s, IsOther(name)) != [] then
      Some(Joined(Texts(Kept(s, IsOther(name)))))
    else
      None
  }

  lemma KindPresent(s: seq<Entry>, id: Id)
    ensures id in Ids(s) <==> OfKind(s, id) != []
  {
    KeptIn(s, IsId(id));
    var k := OfKind(s, id);
    if k != [] {
      assert k[0] in k;
    }
  }

  lemma TextsStep(s: seq<Entry>, e: Entry)
    ensures Joined(Texts(s + [e])) == ListAdd(Joined(Texts(s)), e.value)
  {
    assert Texts(s + [e]) == Texts(s) + [e.value];
    assert (Texts(s) + [e.value])[..|s|] == Texts(s);
  }

  lemma {:induction false} LiveHas(es: seq<Option<Entry>>, id: Id) returns (j: nat)
    requires id in Ids(Live(es))
    ensures j < |es| && es[j].Some? && es[j].value.id == id
  {
    var last := es[|es| - 1];
    if last.Some? && last.value.id == id {
      j := |es| - 1;
    } else {
      j := LiveHas(es[..|es| - 1], id);
    }
  }

  lemma FirstOfKind(es: seq<Option<Entry>>, id: Id, i: nat)
    requires i < |es| && es[i].Some? && es[i].value.id == id && OfKind(Live(es[..i]), id) == []
    ensures OfKind(Live(es), id) != [] && OfKind(Live(es), id)[0] == es[i].value
  {
    hide Live, Kept;
    LiveCount(es, IsId(id), i);
    LiveConcat(es[..i + 1], es[i + 1..]);
    assert es == es[..i + 1] + es[i + 1..];
    KeptConcat(Live(es[..i + 1]), Live(es[i + 1..]), IsId(id));
  }

  lemma {:induction false} LiveConcat(a: seq<Option<Entry>>, b: seq<Option<Entry>>)
    ensures Live(a + b) == Live(a) + Live(b)
    decreases |b|
  {
    if b == [] {
      assert a + b == a;
    } else {
      LiveConcat(a, b[..|b| - 1]);
      assert (a + b)[..|a + b| - 1] == a + b[..|b| - 1];
    }
  }

  function NotId(id: Id): Entry -> bool {
    (e: Entry) => e.id != id
  }

  function NotNamed(name: string): Entry -> bool {
    (e: Entry) => !SameName(e.name, name)
  }

  lemma NothingGapped(es: seq<Option<Entry>>, keep: Entry -> bool)
    ensures Gapped(es[..0], keep) + es[0..] == es
    ensures |Live(es[..0])| == 0 && Kept(Live(es[..0]), keep) == []
  {
  }

  lemma LiveCount(es: seq<Option<Entry>>, keep: Entry -> bool, i: nat)
    requires i < |es|
    ensures Live(es[..i + 1]) == if es[i].Some? then Live(es[..i]) + [es[i].value] else Live(es[..i])
    ensures var was := Kept(Live(es[..i]), keep);
      Kept(Live(es[..i + 1]), keep) == if es[i].Some? && keep(es[i].value) then was + [es[i].value] else was
  {
    assert es[..i + 1] == es[..i] + [es[i]];
    LiveStep(es[..i], es[i]);
    if es[i].Some? {
      KeptStep(Live(es[..i]), es[i].value, keep);
    }
  }

  lemma KeptAll(s: seq<Entry>, keep: Entry -> bool)
    requires forall e :: e in s ==> keep(e)
    ensures Kept(s, keep) == s
  {
    KeptSame(s, keep, (e: Entry) => true);
    KeptEvery(s);
  }

  lemma {:induction false} KeptEvery(s: seq<Entry>)
    ensures Kept(s, (e: Entry) => true) == s
  {
    if s != [] {
      KeptEvery(s[..|s| - 1]);
      assert s == s[..|s| - 1] + [s[|s| - 1]];
    }
  }

  /** Without the fields of a kind, exactly that kind is gone. */
  lemma WithoutId(s: seq<Entry>, id: Id)
    ensures Ids(Kept(s, NotId(id))) == Ids(s) - {id}
    ensures id in Ids(s) <==> exists e :: e in s && !NotId(id)(e)
  {
    KeptIn(s, NotId(id));
  }

  lemma {:induction false} KeptSize(s: seq<Entry>, keep: Entry -> bool)
    ensures |Kept(s, keep)| <= |s|
    ensures |Kept(s, keep)| == |s| <==> forall e :: e in s ==> keep(e)
  {
    if s != [] {
      KeptSize(s[..|s| - 1], keep);
      assert s == s[..|s| - 1] + [s[|s| - 1]];
    }
  }

  /** Gaps in place of the fields that are not kept. */
  function Gapped(es: seq<Option<Entry>>, keep: Entry -> bool): seq<Option<Entry>> {
    seq(|es|, i requires 0 <= i < |es| => if es[i].Some? && !keep(es[i].value) then None else es[i])
  }

  lemma {:induction false} GappedLive(es: seq<Option<Entry>>, keep: Entry -> bool)
    ensures Live(Gapped(es, keep)) == Kept(Live(es), keep)
  {
    if es != [] {
      var front, last := es[..|es| - 1], es[|es| - 1];
      GappedLive(front, keep);
      assert es == front + [last];
      assert Gapped(es, keep) == Gapped(front, keep) + Gapped([last], keep);
      LiveStep(Gapped(front, keep), Gapped([last], keep)[0]);
      if last.Some? {
        KeptStep(Live(front), last.value, keep);
      }
    }
  }

  lemma GappedStep(es: seq<Option<Entry>>, keep: Entry -> bool, i: nat)
    requires i < |es|
    ensures var now := Gapped(es[..i], keep) + es[i..];
      && |now| == |es| && now[i] == es[i]
      && Gapped(es[..i + 1], keep) + es[i + 1..]
         == (if es[i].Some? && !keep(es[i].value) then now[i := None] else now)
  {
  }

  /** What is left when some fields go, and the kinds of it. */
  lemma FieldsLeft(t: Table, s: seq<Entry>, keep: Entry -> bool)
    requires AllNamed(t, s)
    ensures AllNamed(t, Kept(s, keep)) && Ids(Kept(s, keep)) <= Ids(s)
  {
    KeptIn(s, keep);
  }

  lemma IdsStep(s: seq<Entry>, e: Entry)
    ensures Ids(s + [e]) == Ids(s) + {e.id}
  {
  }
}

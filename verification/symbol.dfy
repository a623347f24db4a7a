/**
 * The symbol table of src/symbol.cpp (constants and layout in include/symbol.h): 256
 * slots addressed by open addressing with a djb2 hash and linear probing, no deletion.
 * A slot keeps its name as a C string in a 32-byte array; unused slots hold "".
 */
module Symbol {
  import opened Base

  const SYMBOL_NAME_LEN: nat := 0x20
  const SYMBOL_TABLE_SIZE: nat := 0x100
  /** `snprintf(name, SYMBOL_NAME_LEN - 1, ...)` keeps at most this many characters. */
  const STORED_NAME_MAX: nat := SYMBOL_NAME_LEN - 2
  const SIZE_T_MOD: nat := 0x1_0000_0000_0000_0000

  datatype SymbolType = NUL | FUNCTION | I32 | STR

  /** One slot; `name` is the C string held in the slot's 32-byte array. */
  datatype Symbol = Symbol(kind: SymbolType, inUse: bool, location: int, name: seq<char>)

  const EMPTY: Symbol := Symbol(NUL, false, 0, [])

  /** Slot names are short C strings, and unused slots are still zero-filled. */
  ghost predicate WellFormed(t: seq<Symbol>)
  {
    |t| == SYMBOL_TABLE_SIZE &&
    forall i :: 0 <= i < |t| ==>
      |t[i].name| <= STORED_NAME_MAX && NoNul(t[i].name) && (!t[i].inUse ==> t[i].name == [])
  }

  /** A `char` as the signed 8-bit value the hash adds. */
  function SignedChar(c: char): (v: int)
    ensures -0x80 <= v < 0x80 && (v - c as int) % 0x100 == 0
  {
    var b := CharByte(c) as int;
    if b < 0x80 then b else b - 0x100
  }

  /** The running djb2 value over `s`, in 64-bit `size_t` arithmetic. */
  function Djb2(s: seq<char>): (h: nat)
    ensures h < SIZE_T_MOD
  {
    if s == [] then 5381
    else (Djb2(s[..|s| - 1]) * 33 + SignedChar(s[|s| - 1])) % SIZE_T_MOD
  }

  /** The slot a name starts probing from. */
  function Hash(s: seq<char>): nat
  {
    Djb2(s) % SYMBOL_TABLE_SIZE
  }

  /** djb2 computed in 8-bit arithmetic from the start. */
  function Djb2Low(s: seq<char>): (h: nat)
    ensures h < 0x100
  {
    if s == [] then 5381 % 0x100
    else (Djb2Low(s[..|s| - 1]) * 33 + SignedChar(s[|s| - 1])) % 0x100
  }

  /**
   * The table index only depends on the low byte of every step: 2^64 is a multiple of
   * the table size, so the reduction modulo 256 can be done at each step.
   */
  lemma {:induction false} HashIsLowByteFold(s: seq<char>)
    ensures Hash(s) == Djb2Low(s)
  {
    if s != [] {
      var init := s[..|s| - 1];
      HashIsLowByteFold(init);
      StepResidue(Djb2(init), Djb2Low(init), SignedChar(s[|s| - 1]));
    }
  }

  /** One djb2 step keeps two values that agree modulo 256 in agreement. */
  lemma StepResidue(a: int, b: int, c: int)
    requires a % 0x100 == b % 0x100
    ensures ((a * 33 + c) % SIZE_T_MOD) % 0x100 == (b * 33 + c) % 0x100
  {
    var x, y := a * 33 + c, b * 33 + c;
    var qa, qb := a / 0x100, b / 0x100;
    assert a == 0x100 * qa + a % 0x100;
    assert b == 0x100 * qb + b % 0x100;
    assert x - y == 0x100 * ((qa - qb) * 33);
    var q := x / SIZE_T_MOD;
    assert x == SIZE_T_MOD * q + x % SIZE_T_MOD;
    assert x % SIZE_T_MOD == y + 0x100 * ((qa - qb) * 33 - 0x100_0000_0000_0000 * q);
    ResidueShift(y, (qa - qb) * 33 - 0x100_0000_0000_0000 * q);
  }

  lemma ResidueShift(y: int, k: int)
    ensures (y + 0x100 * k) % 0x100 == y % 0x100
  {
  }

  /** The first `n` characters of a C string, or all of it when shorter. */
  function Take(s: seq<char>, n: nat): seq<char>
  {
    if |s| <= n then s else s[..n]
  }

  /** `strncmp(stored, query, SYMBOL_NAME_LEN) == 0` on two C strings. */
  predicate NamesMatch(stored: seq<char>, query: seq<char>)
  {
    Take(stored, SYMBOL_NAME_LEN) == Take(query, SYMBOL_NAME_LEN)
  }

  /** A stored name shorter than the compared prefix matches exactly the equal query. */
  lemma NamesMatchShort(stored: seq<char>, query: seq<char>)
    requires |stored| < SYMBOL_NAME_LEN
    ensures NamesMatch(stored, query) <==> stored == query
  {
  }

  /** The slot probed at step `i` from `start`. */
  function Slot(start: nat, i: nat): (idx: nat)
    ensures idx < SYMBOL_TABLE_SIZE
  {
    (start + i) % SYMBOL_TABLE_SIZE
  }

  /** A slot where the probe for `name` stops: free, or holding the name. */
  predicate Stops(e: Symbol, name: seq<char>)
  {
    !e.inUse || NamesMatch(e.name, name)
  }

  /** Step `k` is the first step from `i` on where the probe for `name` stops. */
  ghost predicate FirstStop(t: seq<Symbol>, name: seq<char>, start: nat, i: nat, k: nat)
    requires |t| == SYMBOL_TABLE_SIZE
  {
    i <= k < SYMBOL_TABLE_SIZE && Stops(t[Slot(start, k)], name) &&
    forall j :: i <= j < k ==> !Stops(t[Slot(start, j)], name)
  }

  /**
   * The probe loop of `get_entry` from step `i` on: the first slot where it stops,
   * or nothing after a full cycle.
   */
  function Probe(t: seq<Symbol>, name: seq<char>, start: nat, i: nat): (r: Option<nat>)
    requires |t| == SYMBOL_TABLE_SIZE && i <= SYMBOL_TABLE_SIZE
    ensures r.Some? ==> r.value < SYMBOL_TABLE_SIZE && Stops(t[r.value], name)
    decreases SYMBOL_TABLE_SIZE - i
  {
    if i == SYMBOL_TABLE_SIZE then None
    else if Stops(t[Slot(start, i)], name) then Some(Slot(start, i))
    else Probe(t, name, start, i + 1)
  }

  /** The probe finds the first step that stops, and finds nothing only when none does. */
  lemma {:induction false} ProbeFirstStop(t: seq<Symbol>, name: seq<char>, start: nat, i: nat)
    requires |t| == SYMBOL_TABLE_SIZE && i <= SYMBOL_TABLE_SIZE
    ensures var r := Probe(t, name, start, i);
      (r.Some? ==> exists k :: FirstStop(t, name, start, i, k) && r.value == Slot(start, k)) &&
      (r.None? ==> forall j :: i <= j < SYMBOL_TABLE_SIZE ==> !Stops(t[Slot(start, j)], name))
    decreases SYMBOL_TABLE_SIZE - i
  {
    if i == SYMBOL_TABLE_SIZE {
    } else if Stops(t[Slot(start, i)], name) {
      assert FirstStop(t, name, start, i, i);
    } else {
      ProbeFirstStop(t, name, start, i + 1);
      var r := Probe(t, name, start, i + 1);
      if r.Some? {
        var k :| FirstStop(t, name, start, i + 1, k) && r.value == Slot(start, k);
        assert FirstStop(t, name, start, i, k);
      }
    }
  }

  /** `get_entry`: the probe from the name's hash. */
  function Entry(t: seq<Symbol>, name: seq<char>): Option<nat>
    requires |t| == SYMBOL_TABLE_SIZE
  {
    Probe(t, name, Hash(name), 0)
  }

  /** `insert`: whether it succeeded, and the table afterwards. */
  function TableInsert(t: seq<Symbol>, name: seq<char>, location: int, kind: SymbolType): (r: (bool, seq<Symbol>))
    requires |t| == SYMBOL_TABLE_SIZE
    ensures |r.1| == |t|
    ensures !r.0 ==> r.1 == t
    ensures r.0 ==> Entry(t, name).Some? && !t[Entry(t, name).value].inUse
    ensures r.0 ==> r.1 == t[Entry(t, name).value := Symbol(kind, true, location, Take(name, STORED_NAME_MAX))]
  {
    match Entry(t, name)
    case None => (false, t)
    case Some(i) =>
      if NamesMatch(t[i].name, name) then (false, t)
      else (true, t[i := Symbol(kind, true, location, Take(name, STORED_NAME_MAX))])
  }

  /** `lookup`: the slot found for the name, if its name matches. */
  function TableLookup(t: seq<Symbol>, name: seq<char>): Option<nat>
    requires |t| == SYMBOL_TABLE_SIZE
  {
    match Entry(t, name)
    case None => None
    case Some(i) => if NamesMatch(t[i].name, name) then Some(i) else None
  }

  /** A successful insert keeps the table well formed. */
  lemma InsertWellFormed(t: seq<Symbol>, name: seq<char>, location: int, kind: SymbolType)
    requires WellFormed(t) && NoNul(name)
    ensures WellFormed(TableInsert(t, name, location, kind).1)
  {
  }

  /** The empty name is never inserted: every slot the probe can stop at matches "". */
  lemma InsertEmptyFails(t: seq<Symbol>, location: int, kind: SymbolType)
    requires WellFormed(t)
    ensures TableInsert(t, [], location, kind) == (false, t)
  {
    match Entry(t, [])
    case None =>
    case Some(i) =>
      assert Stops(t[i], []);
  }

  /** Inserting fails and changes nothing when the name is already there. */
  lemma InsertPresentFails(t: seq<Symbol>, name: seq<char>, location: int, kind: SymbolType)
    requires WellFormed(t) && TableLookup(t, name).Some?
    ensures TableInsert(t, name, location, kind) == (false, t)
  {
  }

  /** Inserting fails and changes nothing when every slot is taken by another name. */
  lemma InsertFullFails(t: seq<Symbol>, name: seq<char>, location: int, kind: SymbolType)
    requires WellFormed(t)
    requires forall i :: 0 <= i < |t| ==> t[i].inUse && !NamesMatch(t[i].name, name)
    ensures TableInsert(t, name, location, kind) == (false, t)
  {
  }

  /**
   * Probing again after the insert: the slots before the new one still do not stop the
   * probe, and the new one now holds the name.
   */
  lemma {:induction false} ProbeAfterInsert(t: seq<Symbol>, name: seq<char>, start: nat, i: nat, k: nat, e: Symbol)
    requires |t| == SYMBOL_TABLE_SIZE && i <= k < SYMBOL_TABLE_SIZE
    requires forall j :: i <= j < k ==> !Stops(t[Slot(start, j)], name)
    requires forall j :: i <= j < k ==> Slot(start, j) != Slot(start, k)
    requires Stops(e, name)
    ensures Probe(t[Slot(start, k) := e], name, start, i) == Some(Slot(start, k))
    decreases k - i
  {
    var t' := t[Slot(start, k) := e];
    if i < k {
      assert t'[Slot(start, i)] == t[Slot(start, i)];
      ProbeAfterInsert(t, name, start, i + 1, k, e);
    }
  }

  /** Distinct probe steps of one cycle visit distinct slots. */
  lemma SlotsDistinct(start: nat, j: nat, k: nat)
    requires j < k < SYMBOL_TABLE_SIZE
    ensures Slot(start, j) != Slot(start, k)
  {
  }

  /**
   * After a successful insert of a name of at most 30 characters, looking the name up
   * finds the slot just written, with the inserted location and type.
   */
  lemma InsertThenLookup(t: seq<Symbol>, name: seq<char>, location: int, kind: SymbolType)
    requires WellFormed(t) && NoNul(name) && |name| <= STORED_NAME_MAX
    requires TableInsert(t, name, location, kind).0
    ensures var t' := TableInsert(t, name, location, kind).1;
      TableLookup(t', name) == Entry(t, name) && TableLookup(t', name).Some? &&
      TableLookup(t', name).value < |t'| &&
      t'[TableLookup(t', name).value] == Symbol(kind, true, location, name)
  {
    var i := Entry(t, name).value;
    var start := Hash(name);
    ProbeFirstStop(t, name, start, 0);
    var k: nat :| FirstStop(t, name, start, 0, k) && i == Slot(start, k);
    var e := Symbol(kind, true, location, name);
    assert Take(name, STORED_NAME_MAX) == name;
    forall j | 0 <= j < k ensures Slot(start, j) != Slot(start, k) {
      SlotsDistinct(start, j, k);
    }
    ProbeAfterInsert(t, name, start, 0, k, e);
  }

  /**
   * `lookup` only returns a slot holding exactly the query, and that slot is in use,
   * except for the empty query, which stops at the first free slot.
   */
  lemma LookupSound(t: seq<Symbol>, name: seq<char>)
    requires WellFormed(t) && TableLookup(t, name).Some?
    ensures var i := TableLookup(t, name).value;
      i < |t| && t[i].name == name && (name != [] ==> t[i].inUse)
  {
    var i := TableLookup(t, name).value;
    NamesMatchShort(t[i].name, name);
  }

  /** A non-empty name no slot in use holds is not found. */
  lemma LookupAbsent(t: seq<Symbol>, name: seq<char>)
    requires WellFormed(t) && name != []
    requires forall i :: 0 <= i < |t| && t[i].inUse ==> t[i].name != name
    ensures TableLookup(t, name) == None
  {
    if TableLookup(t, name).Some? {
      LookupSound(t, name);
    }
  }

  /**
   * Every slot in use is the one `lookup` returns for the name it holds: with the
   * table well formed, no two slots in use hold the same name.
   */
  ghost predicate Findable(t: seq<Symbol>)
  {
    |t| == SYMBOL_TABLE_SIZE &&
    forall i :: 0 <= i < |t| && t[i].inUse ==> TableLookup(t, t[i].name) == Some(i)
  }

  /**
   * Filling a free slot that is not where the probe stops leaves the probe as it was:
   * every slot the probe passes before its stop is in use, so the free slot is none of them.
   */
  lemma {:induction false} ProbeFrame(t: seq<Symbol>, name: seq<char>, start: nat, i: nat, p: nat, e: Symbol)
    requires |t| == SYMBOL_TABLE_SIZE && i <= SYMBOL_TABLE_SIZE && p < SYMBOL_TABLE_SIZE && !t[p].inUse
    requires Probe(t, name, start, i).Some? && Probe(t, name, start, i).value != p
    ensures Probe(t[p := e], name, start, i) == Probe(t, name, start, i)
    decreases SYMBOL_TABLE_SIZE - i
  {
    var t' := t[p := e];
    if !Stops(t[Slot(start, i)], name) {
      assert Slot(start, i) != p;
      assert t'[Slot(start, i)] == t[Slot(start, i)];
      ProbeFrame(t, name, start, i + 1, p, e);
    } else {
      assert t'[Slot(start, i)] == t[Slot(start, i)];
    }
  }

  /**
   * A name `lookup` finds in a slot in use (any non-empty name it finds, by
   * `LookupSound`) is still found, in the same slot, after any insert: an insert only
   * fills a free slot.
   */
  lemma InsertKeepsFound(t: seq<Symbol>, name: seq<char>, location: int, kind: SymbolType, m: seq<char>)
    requires |t| == SYMBOL_TABLE_SIZE && TableLookup(t, m).Some? && t[TableLookup(t, m).value].inUse
    ensures TableLookup(TableInsert(t, name, location, kind).1, m) == TableLookup(t, m)
  {
    var r := TableInsert(t, name, location, kind);
    if r.0 {
      var p := Entry(t, name).value;
      var i := TableLookup(t, m).value;
      ProbeFrame(t, m, Hash(m), 0, p, Symbol(kind, true, location, Take(name, STORED_NAME_MAX)));
      assert r.1[i] == t[i];
    }
  }

  /** Inserting a name of at most 30 characters keeps every stored name findable. */
  lemma InsertKeepsFindable(t: seq<Symbol>, name: seq<char>, location: int, kind: SymbolType)
    requires WellFormed(t) && Findable(t) && NoNul(name) && |name| <= STORED_NAME_MAX
    ensures Findable(TableInsert(t, name, location, kind).1)
  {
    var t' := TableInsert(t, name, location, kind).1;
    forall i | 0 <= i < |t'| && t'[i].inUse
      ensures TableLookup(t', t'[i].name) == Some(i)
    {
      InsertKeepsSlot(t, name, location, kind, i);
    }
  }

  /** One slot in use after the insert: the new one, or one that was findable before. */
  lemma InsertKeepsSlot(t: seq<Symbol>, name: seq<char>, location: int, kind: SymbolType, i: nat)
    requires WellFormed(t) && Findable(t) && NoNul(name) && |name| <= STORED_NAME_MAX
    requires i < SYMBOL_TABLE_SIZE && TableInsert(t, name, location, kind).1[i].inUse
    ensures var t' := TableInsert(t, name, location, kind).1;
      TableLookup(t', t'[i].name) == Some(i)
  {
    var r := TableInsert(t, name, location, kind);
    if r.0 && i == Entry(t, name).value {
      InsertThenLookup(t, name, location, kind);
    } else {
      assert r.1[i] == t[i];
      assert TableLookup(t, t[i].name) == Some(i);
      InsertKeepsFound(t, name, location, kind, t[i].name);
    }
  }

  /** In a findable table no two slots in use hold the same name. */
  lemma FindableDistinct(t: seq<Symbol>, i: nat, j: nat)
    requires Findable(t) && i < |t| && j < |t| && t[i].inUse && t[j].inUse
    requires t[i].name == t[j].name
    ensures i == j
  {
    assert TableLookup(t, t[i].name) == Some(i);
    assert TableLookup(t, t[j].name) == Some(j);
  }

  /** The slots of a table just constructed: every one unused. */
  function FreshTable(): (t: seq<Symbol>)
    ensures WellFormed(t) && Findable(t) && forall i :: 0 <= i < |t| ==> !t[i].inUse
  {
    seq(SYMBOL_TABLE_SIZE, _ => EMPTY)
  }

  /** In a table nothing was inserted into yet, inserting a non-empty name succeeds. */
  lemma InsertIntoFresh(name: seq<char>, location: int, kind: SymbolType)
    requires name != []
    ensures TableInsert(FreshTable(), name, location, kind).0
  {
    var t := FreshTable();
    assert Stops(t[Slot(Hash(name), 0)], name);
    assert Entry(t, name) == Some(Slot(Hash(name), 0));
    assert !NamesMatch([], name) by {
      assert |Take(name, SYMBOL_NAME_LEN)| > 0;
    }
  }

  /** Names longer than 30 characters are stored truncated and are never found. */
  lemma LongNamesNeverFound(t: seq<Symbol>, name: seq<char>)
    requires WellFormed(t) && |name| > STORED_NAME_MAX
    ensures TableLookup(t, name) == None
  {
    if TableLookup(t, name).Some? {
      LookupSound(t, name);
    }
  }

  /**
   * A name longer than 30 characters can be inserted twice: the first insert stores it
   * cut short, and the 32-character comparison of the second insert does not match
   * the cut name, so the probe goes on to the next free slot.
   */
  lemma LongNameInsertedTwice(name: seq<char>, location: int, kind: SymbolType)
    requires NoNul(name) && |name| > STORED_NAME_MAX
    ensures var (ok1, t1) := TableInsert(FreshTable(), name, location, kind);
      var (ok2, t2) := TableInsert(t1, name, location, kind);
      ok1 && ok2 &&
      var a, b := Slot(Hash(name), 0), Slot(Hash(name), 1);
      a != b && t2[a].inUse && t2[b].inUse && t2[a].name == t2[b].name == Take(name, STORED_NAME_MAX)
  {
    var t0 := FreshTable();
    var h := Hash(name);
    var a, b := Slot(h, 0), Slot(h, 1);
    var cut := Take(name, STORED_NAME_MAX);
    assert Stops(t0[a], name);
    assert Entry(t0, name) == Some(a);
    assert !NamesMatch([], name) by {
      assert |Take(name, SYMBOL_NAME_LEN)| > 0;
    }
    var t1 := t0[a := Symbol(kind, true, location, cut)];
    assert !NamesMatch(cut, name) by {
      assert |Take(cut, SYMBOL_NAME_LEN)| == STORED_NAME_MAX < |Take(name, SYMBOL_NAME_LEN)|;
    }
    assert a != b;
    assert t1[b] == EMPTY;
    assert Probe(t1, name, h, 1) == Some(b);
    assert Entry(t1, name) == Some(b);
  }

  class SymbolTable {
    const table: array<Symbol>

    ghost predicate Valid()
      reads this, table
    {
      WellFormed(table[..])
    }

    constructor ()
      ensures Valid() && fresh(table)
      ensures forall i :: 0 <= i < table.Length ==> table[i] == EMPTY
    {
      table := new Symbol[SYMBOL_TABLE_SIZE](_ => EMPTY);
    }

    /** `hash`: the djb2 loop over the name, reduced to a slot index. */
    static method HashOf(name: seq<char>) returns (h: nat)
      ensures h == Hash(name) && h < SYMBOL_TABLE_SIZE
    {
      var acc: nat := 5381;
      var i := 0;
      while i < |name|
        invariant 0 <= i <= |name|
        invariant acc == Djb2(name[..i])
      {
        assert name[..i + 1][..i] == name[..i];
        acc := (acc * 33 + SignedChar(name[i])) % SIZE_T_MOD;
        i := i + 1;
      }
      assert name[..i] == name;
      h := acc % SYMBOL_TABLE_SIZE;
    }

    /** `get_entry`: the first slot from the hash on that is free or holds the name. */
    method GetEntry(name: seq<char>) returns (r: Option<nat>)
      requires Valid()
      ensures r == Entry(table[..], name)
    {
      var idx := HashOf(name);
      r := ProbeFrom(idx, name);
    }

    /** The probe loop of `get_entry` from slot `idx`. */
    method ProbeFrom(idx: nat, name: seq<char>) returns (r: Option<nat>)
      requires Valid()
      ensures r == Probe(table[..], name, idx, 0)
    {
      ghost var t := table[..];
      var i := 0;
      while i < SYMBOL_TABLE_SIZE
        invariant 0 <= i <= SYMBOL_TABLE_SIZE
        invariant Probe(t, name, idx, 0) == Probe(t, name, idx, i)
      {
        var cur := (idx + i) % SYMBOL_TABLE_SIZE;
        assert cur == Slot(idx, i) && table[cur] == t[cur];
        if !table[cur].inUse || NamesMatch(table[cur].name, name) {
          return Some(cur);
        }
        i := i + 1;
      }
      return None;
    }

    /**
     * `insert`: fails when the probe finds no slot or finds the name; otherwise writes
     * one free slot with the name cut to 30 characters, the location and the type.
     */
    method Insert(name: seq<char>, location: int, kind: SymbolType) returns (ok: bool)
      requires Valid() && NoNul(name)
      modifies table
      ensures Valid()
      ensures (ok, table[..]) == TableInsert(old(table[..]), name, location, kind)
      ensures old(Findable(table[..])) && |name| <= STORED_NAME_MAX ==> Findable(table[..])
    {
      var entry := GetEntry(name);
      if entry.None? {
        return false;
      }
      var i := entry.value;
      if NamesMatch(table[i].name, name) {
        return false;
      }
      table[i] := Symbol(kind, true, location, Take(name, STORED_NAME_MAX));
      ok := true;
      InsertWellFormed(old(table[..]), name, location, kind);
      if Findable(old(table[..])) && |name| <= STORED_NAME_MAX {
        InsertKeepsFindable(old(table[..]), name, location, kind);
      }
    }

    /** `lookup`: the slot holding the name, if any. */
    method Lookup(name: seq<char>) returns (r: Option<nat>)
      requires Valid()
      ensures r == TableLookup(table[..], name)
    {
      var entry := GetEntry(name);
      if entry.None? {
        return None;
      }
      if NamesMatch(table[entry.value].name, name) {
        return entry;
      }
      return None;
    }
  }
}

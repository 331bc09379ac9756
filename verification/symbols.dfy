/**
 * The assembler's symbol table: a fixed array of `MaxSymbols` entries of
 * which the first `count` are in use, searched front to back by name.
 */
module Symbols {
  import opened Types

  /** `MAX_SYMBOLS`. */
  const MaxSymbols: nat := 256

  /**
   * The position of the first entry named `name`, or -1 when no entry has
   * that name.
   */
  function FindIndex(entries: seq<Symbol>, name: string): (i: int)
    ensures -1 <= i < |entries|
    ensures 0 <= i ==> entries[i].name == name
    ensures 0 <= i ==> forall k :: 0 <= k < i ==> entries[k].name != name
    ensures i == -1 <==> forall k :: 0 <= k < |entries| ==> entries[k].name != name
  {
    if |entries| == 0 then -1
    else if entries[0].name == name then 0
    else
      var j := FindIndex(entries[1..], name);
      if j < 0 then -1 else j + 1
  }

  /**
   * Appending an entry leaves every earlier match where it was; the new entry
   * is found only when its name was not there before.
   */
  lemma FindAfterAppend(entries: seq<Symbol>, s: Symbol, name: string)
    ensures FindIndex(entries + [s], name) ==
      if FindIndex(entries, name) >= 0 then FindIndex(entries, name)
      else if s.name == name then |entries|
      else -1
  {
    var e := entries + [s];
    var i, j := FindIndex(e, name), FindIndex(entries, name);
    assert forall k :: 0 <= k < |entries| ==> e[k] == entries[k];
    if j >= 0 {
      assert e[j].name == name;
      assert forall k :: 0 <= k < j ==> e[k].name != name;
    } else if s.name == name {
      assert e[|entries|].name == name;
    }
  }

  /** A name added to a table that lacked it is found at the new entry, with its address. */
  lemma AddThenFind(entries: seq<Symbol>, name: string, address: Word)
    requires FindIndex(entries, name) == -1
    ensures FindIndex(entries + [Symbol(name, address, true)], name) == |entries|
    ensures (entries + [Symbol(name, address, true)])[|entries|].address == address
  {
    FindAfterAppend(entries, Symbol(name, address, true), name);
  }

  /** Adding a name that is already present does not hide the earlier entry. */
  lemma AddDuplicateKeepsFirst(entries: seq<Symbol>, name: string, address: Word)
    requires FindIndex(entries, name) >= 0
    ensures FindIndex(entries + [Symbol(name, address, true)], name) == FindIndex(entries, name)
  {
    FindAfterAppend(entries, Symbol(name, address, true), name);
  }

  /**
   * The global `symbols` array, `symbol_count` and `program_counter`.
   * Entries at and after `count` are unused.
   */
  class SymbolTable {
    const symbols: array<Symbol>
    var count: nat
    var programCounter: Word

    ghost predicate Valid()
      reads this
    {
      symbols.Length == MaxSymbols && count <= MaxSymbols
    }

    /** The entries in use. */
    function Entries(): seq<Symbol>
      reads this, symbols
      requires Valid()
    {
      symbols[..count]
    }

    /** The zero-initialised globals: no symbols, counter 0. */
    constructor ()
      ensures Valid() && fresh(symbols)
      ensures count == 0 && programCounter == 0 && Entries() == []
    {
      symbols := new Symbol[MaxSymbols](_ => Symbol("", 0, false));
      count := 0;
      programCounter := 0;
    }

    /** `find_symbol`: the first entry in use with this name, or -1. */
    method FindSymbol(name: string) returns (idx: int)
      requires Valid()
      ensures idx == FindIndex(Entries(), name)
    {
      var i := 0;
      while i < count
        invariant 0 <= i <= count
        invariant forall k :: 0 <= k < i ==> symbols[k].name != name
      {
        if symbols[i].name == name {
          return i;
        }
        i := i + 1;
      }
      return -1;
    }

    /**
     * `add_symbol`: on a table with room, store a defined entry at index
     * `count` and count it; on a full table, do nothing.
     */
    method AddSymbol(name: string, address: Word)
      requires Valid()
      modifies this, symbols
      ensures Valid() && programCounter == old(programCounter)
      ensures old(count) < MaxSymbols ==>
        count == old(count) + 1 &&
        symbols[..] == old(symbols[..])[old(count) := Symbol(name, address, true)]
      ensures old(count) == MaxSymbols ==>
        count == old(count) && symbols[..] == old(symbols[..])
      ensures Entries() == if old(count) < MaxSymbols
        then old(Entries()) + [Symbol(name, address, true)]
        else old(Entries())
    {
      if count < MaxSymbols {
        symbols[count] := Symbol(name, address, true);
        count := count + 1;
      }
    }

    /** The reset at the start of `assemble_6502`: no symbols, counter 0. */
    method Reset()
      requires Valid()
      modifies this
      ensures Valid() && count == 0 && programCounter == 0 && Entries() == []
    {
      count := 0;
      programCounter := 0;
    }
  }
}

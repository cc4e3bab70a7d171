/** The metadata cache (db.py): one sqlite table per URL kind, each mapping
    `item_id` (the primary key) to the JSON text of a document. The JSON text
    is represented by the document itself, since every stored text comes from
    `json.dumps` and is read back with `json.loads`. */
module Db {
  import opened Wrappers
  import opened Model

  /** The table names `init` creates, in its order (db.py:6). */
  const Kinds: seq<Kind> := [Channel, ChannelAlt, Playlist, Video]

  /** The database: the rows of every table that exists. */
  type Tables = map<Kind, map<string, Doc>>

  /** SQL text built by interpolating a value containing a single quote is
      malformed: sqlite rejects the statement. */
  predicate Malformed(s: string)
  {
    Quote in s
  }

  /** Every row other than `(k, id)` reads the same in `t` and `t'`, and the
      same tables exist. */
  ghost predicate OthersUnchanged(t: Tables, t': Tables, k: Kind, id: string)
  {
    && t.Keys == t'.Keys
    && (forall k2 :: k2 in t && k2 != k ==> t'[k2] == t[k2])
    && (k in t ==> forall i :: i != id ==> (i in t[k] <==> i in t'[k]) && (i in t[k] ==> t'[k][i] == t[k][i]))
  }

  // ---------------------------------------------------------------------
  // init (db.py:4-10)

  /** `CREATE TABLE IF NOT EXISTS k`. */
  function CreateTable(t: Tables, k: Kind): Tables
  {
    if k in t then t else t[k := map[]]
  }

  /** The loop of `init` over the remaining kinds `ks`. */
  function CreateAll(t: Tables, ks: seq<Kind>): Tables
    decreases |ks|
  {
    if ks == [] then t else CreateAll(CreateTable(t, ks[0]), ks[1..])
  }

  /** The database after `init`. */
  function Initialised(t: Tables): Tables
  {
    CreateAll(t, Kinds)
  }

  /** Creating the tables `ks` adds an empty table for each missing one and
      leaves every existing table as it was. */
  lemma {:induction false} CreateAllAdds(t: Tables, ks: seq<Kind>)
    ensures CreateAll(t, ks).Keys == t.Keys + set k | k in ks
    ensures forall k :: k in t ==> CreateAll(t, ks)[k] == t[k]
    ensures forall k :: k in ks && k !in t ==> CreateAll(t, ks)[k] == map[]
    decreases |ks|
  {
    if ks != [] {
      CreateAllAdds(CreateTable(t, ks[0]), ks[1..]);
      assert (set k | k in ks) == {ks[0]} + set k | k in ks[1..];
    }
  }

  /** After `init` all four tables exist; tables that existed keep their rows
      and the new ones are empty. */
  lemma InitCreatesEveryTable(t: Tables)
    ensures forall k: Kind :: k in Initialised(t)
    ensures forall k :: k in t ==> Initialised(t)[k] == t[k]
    ensures forall k :: k !in t ==> Initialised(t)[k] == map[]
  {
    CreateAllAdds(t, Kinds);
    forall k: Kind ensures k in Kinds {
      match k
      case Channel => assert Kinds[0] == k;
      case ChannelAlt => assert Kinds[1] == k;
      case Playlist => assert Kinds[2] == k;
      case Video => assert Kinds[3] == k;
    }
  }

  /** Running `init` again changes nothing (IF NOT EXISTS). */
  lemma InitIdempotent(t: Tables)
    ensures Initialised(Initialised(t)) == Initialised(t)
  {
    InitCreatesEveryTable(t);
    InitCreatesEveryTable(Initialised(t));
  }

  // ---------------------------------------------------------------------
  // add_entry, update_entry, get_entry (db.py:12-29)

  /** `add_entry`: a parameter-bound INSERT. It raises when the table does
      not exist or when `id` is already a key of it. */
  function Insert(t: Tables, k: Kind, id: string, doc: Doc): (r: Py<Tables>)
    ensures r.Ok? <==> k in t && id !in t[k]
    ensures r.Raise? ==> r.fault == (if k in t then IntegrityError else OperationalError)
    ensures r.Ok? ==> k in r.value && id in r.value[k] && r.value[k][id] == doc
  {
    if k !in t then Raise(OperationalError)
    else if id in t[k] then Raise(IntegrityError)
    else Ok(t[k := t[k][id := doc]])
  }

  /** `update_entry`: an UPDATE whose SQL text interpolates the document and
      the id. A quote in either makes the statement malformed, so it raises;
      otherwise it overwrites an existing row and matches nothing for an
      absent id. */
  function Update(t: Tables, k: Kind, id: string, doc: Doc): (r: Py<Tables>)
    ensures r.Raise? <==> k !in t || Malformed(id) || DocHasQuote(doc)
    ensures r.Ok? && id in t[k] ==> k in r.value && id in r.value[k] && r.value[k][id] == doc
    ensures r.Ok? && id !in t[k] ==> r.value == t
  {
    if k !in t || Malformed(id) || DocHasQuote(doc) then Raise(OperationalError)
    else if id in t[k] then Ok(t[k := t[k][id := doc]])
    else Ok(t)
  }

  /** `get_entry`: a SELECT whose SQL text interpolates the id. Any SQL error
      (a missing table, a quote in the id) is caught and reported as a miss. */
  function Lookup(t: Tables, k: Kind, id: string): (r: Option<Doc>)
    ensures r.Some? ==> k in t && id in t[k] && r.value == t[k][id]
    ensures Malformed(id) ==> r == None
  {
    if k !in t || Malformed(id) then None
    else if id in t[k] then Some(t[k][id])
    else None
  }

  /** After a successful `add_entry` with an id free of quotes, `get_entry`
      returns the stored document. */
  lemma InsertThenLookup(t: Tables, k: Kind, id: string, doc: Doc)
    requires Insert(t, k, id, doc).Ok? && !Malformed(id)
    ensures Lookup(Insert(t, k, id, doc).value, k, id) == Some(doc)
  {
  }

  /** An id with a quote is never found, even right after `add_entry` stored it. */
  lemma QuotedIdNeverFound(t: Tables, k: Kind, id: string, doc: Doc)
    requires Insert(t, k, id, doc).Ok? && Malformed(id)
    ensures id in Insert(t, k, id, doc).value[k]
    ensures Lookup(Insert(t, k, id, doc).value, k, id) == None
  {
  }

  /** A write touches only the row `(k, id)`: every other row and table is as
      before and no table is created. */
  lemma WriteTouchesOneRow(t: Tables, k: Kind, id: string, doc: Doc)
    ensures Insert(t, k, id, doc).Ok? ==> OthersUnchanged(t, Insert(t, k, id, doc).value, k, id)
    ensures Update(t, k, id, doc).Ok? ==> OthersUnchanged(t, Update(t, k, id, doc).value, k, id)
  {
  }

  /** Writes never remove a table or a row: there is no delete. */
  lemma WritesKeepRows(t: Tables, k: Kind, id: string, doc: Doc)
    ensures Insert(t, k, id, doc).Ok? ==> Grows(t, Insert(t, k, id, doc).value)
    ensures Update(t, k, id, doc).Ok? ==> Grows(t, Update(t, k, id, doc).value)
  {
  }

  /** `t'` has every table and every row of `t`. */
  ghost predicate Grows(t: Tables, t': Tables)
  {
    t.Keys <= t'.Keys && forall k :: k in t ==> t[k].Keys <= t'[k].Keys
  }

  /** Lookups see the last write: after an insert or an update of `(k, id)`,
      every other key reads as before. */
  lemma WriteLeavesOtherLookups(t: Tables, k: Kind, id: string, doc: Doc, k2: Kind, id2: string)
    requires k2 != k || id2 != id
    ensures Insert(t, k, id, doc).Ok? ==> Lookup(Insert(t, k, id, doc).value, k2, id2) == Lookup(t, k2, id2)
    ensures Update(t, k, id, doc).Ok? ==> Lookup(Update(t, k, id, doc).value, k2, id2) == Lookup(t, k2, id2)
  {
  }

  // ---------------------------------------------------------------------
  // The connection (db.py:2) as an object whose tables change in place.

  class Cache {
    var tables: Tables

    /** `sqlite3.connect("cache.db")` on a file holding `stored`. */
    constructor (stored: Tables)
      ensures tables == stored
    {
      tables := stored;
    }

    /** `init` (db.py:4-10): one CREATE TABLE IF NOT EXISTS per kind. */
    method Init()
      modifies this
      ensures tables == Initialised(old(tables))
    {
      var i := 0;
      while i < |Kinds|
        invariant 0 <= i <= |Kinds|
        invariant CreateAll(tables, Kinds[i..]) == Initialised(old(tables))
      {
        assert Kinds[i..][1..] == Kinds[i + 1..];
        if Kinds[i] !in tables {
          tables := tables[Kinds[i] := map[]];
        }
        i := i + 1;
      }
    }

    /** `add_entry` (db.py:12-15). */
    method AddEntry(k: Kind, id: string, doc: Doc) returns (r: Py<()>)
      modifies this
      ensures Insert(old(tables), k, id, doc).Ok? ==> r == Ok(()) && tables == Insert(old(tables), k, id, doc).value
      ensures Insert(old(tables), k, id, doc).Raise? ==> r == Raise(Insert(old(tables), k, id, doc).fault) && tables == old(tables)
    {
      if k !in tables {
        return Raise(OperationalError);
      }
      if id in tables[k] {
        return Raise(IntegrityError);
      }
      tables := tables[k := tables[k][id := doc]];
      return Ok(());
    }

    /** `update_entry` (db.py:17-20). */
    method UpdateEntry(k: Kind, id: string, doc: Doc) returns (r: Py<()>)
      modifies this
      ensures Update(old(tables), k, id, doc).Ok? ==> r == Ok(()) && tables == Update(old(tables), k, id, doc).value
      ensures Update(old(tables), k, id, doc).Raise? ==> r == Raise(OperationalError) && tables == old(tables)
    {
      if k !in tables || Malformed(id) || DocHasQuote(doc) {
        return Raise(OperationalError);
      }
      if id in tables[k] {
        tables := tables[k := tables[k][id := doc]];
      }
      return Ok(());
    }

    /** `get_entry` (db.py:22-29); it never raises. */
    method GetEntry(k: Kind, id: string) returns (r: Option<Doc>)
      ensures r == Lookup(tables, k, id)
    {
      if k !in tables || Malformed(id) {
        return None;
      }
      if id in tables[k] {
        return Some(tables[k][id]);
      }
      return None;
    }
  }
}

/** The trip history routes: `/guardar` appends one record, `/:email` lists a
    passenger's records by id, newest first. The table's columns are the ones
    the route writes; `new Date()` is the parameter `now`. */
module Historial {
  import opened Common

  /** The request body; every field may be absent. */
  datatype HistInput = HistInput(
    pasajero: Option<string>, conductor: Option<string>,
    origen: Option<string>, destino: Option<string>,
    distancia: Option<string>, duracion: Option<string>,
    costo: Option<real>, estado: Option<string>,
    origenTexto: Option<string>, destinoTexto: Option<string>)

  datatype HistRecord = HistRecord(
    id: nat, pasajero: Option<string>, conductor: Option<string>,
    origen: Option<string>, destino: Option<string>,
    distancia: Option<string>, duracion: Option<string>,
    costo: Option<real>, estado: Option<string>, fecha: int,
    origenTexto: string, destinoTexto: string)

  /** The reply of `/guardar`: a message and the created row, under `nuevo`. */
  datatype SaveReply = Saved(message: string, nuevo: HistRecord)

  /** The row `create` builds from a body: the fields as sent, the texts
      defaulting to `""` when absent or empty. */
  function NewRecord(id: nat, v: HistInput, now: int): (r: HistRecord)
    ensures r.id == id && r.fecha == now
    ensures r.pasajero == v.pasajero && r.conductor == v.conductor
    ensures r.origen == v.origen && r.destino == v.destino
    ensures r.distancia == v.distancia && r.duracion == v.duracion
    ensures r.costo == v.costo && r.estado == v.estado
    ensures Truthy(v.origenTexto) ==> r.origenTexto == v.origenTexto.value
    ensures !Truthy(v.origenTexto) ==> r.origenTexto == ""
    ensures Truthy(v.destinoTexto) ==> r.destinoTexto == v.destinoTexto.value
    ensures !Truthy(v.destinoTexto) ==> r.destinoTexto == ""
  {
    HistRecord(id, v.pasajero, v.conductor, v.origen, v.destino, v.distancia, v.duracion,
               v.costo, v.estado, now, OrElse(v.origenTexto, ""), OrElse(v.destinoTexto, ""))
  }

  predicate SortedDesc(s: seq<HistRecord>)
  {
    forall i, j :: 0 <= i < j < |s| ==> s[i].id >= s[j].id
  }

  predicate DistinctIds(s: seq<HistRecord>)
  {
    forall i, j :: 0 <= i < j < |s| ==> s[i].id != s[j].id
  }

  /** Insert `x` before the first record with a smaller or equal id. */
  function InsertDesc(x: HistRecord, s: seq<HistRecord>): (r: seq<HistRecord>)
    ensures multiset(r) == multiset(s) + multiset{x}
  {
    if |s| == 0 then [x]
    else if x.id >= s[0].id then [x] + s
    else
      assert s == [s[0]] + s[1..];
      [s[0]] + InsertDesc(x, s[1..])
  }

  lemma {:induction false} InsertDescSorted(x: HistRecord, s: seq<HistRecord>)
    requires SortedDesc(s)
    ensures SortedDesc(InsertDesc(x, s))
    decreases |s|
  {
    if |s| > 0 && x.id < s[0].id {
      InsertDescSorted(x, s[1..]);
      var r := InsertDesc(x, s);
      var tail := InsertDesc(x, s[1..]);
      assert r == [s[0]] + tail;
      forall k | 0 <= k < |tail| ensures s[0].id >= tail[k].id {
        assert tail[k] in multiset(tail);
        assert tail[k] in multiset(s[1..]) + multiset{x};
        if tail[k] != x {
          assert tail[k] in s[1..];
        }
      }
    }
  }

  /** `orderBy: { id: "desc" }`, as an insertion sort. */
  function SortDesc(s: seq<HistRecord>): (r: seq<HistRecord>)
    ensures multiset(r) == multiset(s)
  {
    if |s| == 0 then []
    else
      assert s == [s[0]] + s[1..];
      InsertDesc(s[0], SortDesc(s[1..]))
  }

  lemma {:induction false} SortDescSorted(s: seq<HistRecord>)
    ensures SortedDesc(SortDesc(s))
    decreases |s|
  {
    if |s| > 0 {
      SortDescSorted(s[1..]);
      InsertDescSorted(s[0], SortDesc(s[1..]));
    }
  }

  /** `where: { pasajero: email }`, in table order. */
  function ByPasajero(rows: seq<HistRecord>, email: string): (r: seq<HistRecord>)
    ensures forall x :: x in r <==> x in rows && x.pasajero == Some(email)
  {
    if |rows| == 0 then []
    else
      var rest := ByPasajero(rows[1..], email);
      assert forall x :: x in rows <==> x == rows[0] || x in rows[1..];
      if rows[0].pasajero == Some(email) then [rows[0]] + rest else rest
  }

  /** GET `/:email`: the passenger's records, highest id first. */
  function Listing(rows: seq<HistRecord>, email: string): seq<HistRecord>
  {
    SortDesc(ByPasajero(rows, email))
  }

  /** The listing holds exactly the records of that passenger, and its ids
      never increase; when the table's ids are distinct (they are an
      autoincrement key) they strictly decrease. */
  lemma ListingSpec(rows: seq<HistRecord>, email: string)
    ensures forall x :: x in Listing(rows, email) <==> x in rows && x.pasajero == Some(email)
    ensures SortedDesc(Listing(rows, email))
    ensures DistinctIds(rows) ==>
              forall i, j :: 0 <= i < j < |Listing(rows, email)| ==> Listing(rows, email)[i].id > Listing(rows, email)[j].id
  {
    var f := ByPasajero(rows, email);
    var l := Listing(rows, email);
    assert forall x :: x in l <==> x in multiset(l);
    assert forall x :: x in f <==> x in multiset(f);
    SortDescSorted(f);
    if DistinctIds(rows) {
      forall i, j | 0 <= i < j < |l| ensures l[i].id > l[j].id {
        assert l[i] in rows && l[j] in rows;
        var a :| 0 <= a < |rows| && rows[a] == l[i];
        var b :| 0 <= b < |rows| && rows[b] == l[j];
        if l[i].id == l[j].id {
          assert a == b;
          FilterDistinct(rows, email);
          CountAtMostOne(f, l[i]);
          MultisetTwoPositions(l, i, j);
          assert false;
        }
      }
    }
  }

  /** A filter of a table with distinct ids has distinct ids. */
  lemma {:induction false} FilterDistinct(rows: seq<HistRecord>, email: string)
    requires DistinctIds(rows)
    ensures DistinctIds(ByPasajero(rows, email))
    decreases |rows|
  {
    if |rows| > 0 {
      assert DistinctIds(rows[1..]);
      FilterDistinct(rows[1..], email);
      var rest := ByPasajero(rows[1..], email);
      forall k | 0 <= k < |rest| ensures rest[k].id != rows[0].id {
        assert rest[k] in rows[1..];
      }
    }
  }

  /** In a sequence with distinct ids nothing occurs twice. */
  lemma {:induction false} CountAtMostOne(s: seq<HistRecord>, x: HistRecord)
    requires DistinctIds(s)
    ensures multiset(s)[x] <= 1
    decreases |s|
  {
    if |s| > 0 {
      assert s == [s[0]] + s[1..];
      assert DistinctIds(s[1..]);
      CountAtMostOne(s[1..], x);
      if s[0] == x {
        assert x !in s[1..];
      }
    }
  }

  lemma {:induction false} MultisetTwoPositions(s: seq<HistRecord>, i: nat, j: nat)
    requires i < j < |s| && s[i] == s[j]
    ensures multiset(s)[s[i]] >= 2
  {
    assert s == s[..i] + [s[i]] + s[i+1..j] + [s[j]] + s[j+1..];
  }

  class HistorialTable {
    var rows: seq<HistRecord>
    /** The next autoincrement id. */
    var nextId: nat

    ghost predicate Valid()
      reads this
    {
      && (forall i, j :: 0 <= i < j < |rows| ==> rows[i].id < rows[j].id)
      && (forall k :: 0 <= k < |rows| ==> rows[k].id < nextId)
    }

    constructor ()
      ensures Valid() && rows == [] && nextId == 0
    {
      rows, nextId := [], 0;
    }

    /** POST `/guardar`: append one row; earlier rows are untouched. */
    method Guardar(v: HistInput, now: int) returns (reply: SaveReply)
      requires Valid()
      modifies this
      ensures Valid()
      ensures rows == old(rows) + [NewRecord(old(nextId), v, now)]
      ensures nextId == old(nextId) + 1
      ensures reply == Saved("Viaje guardado correctamente", NewRecord(old(nextId), v, now))
    {
      var nuevo := NewRecord(nextId, v, now);
      rows := rows + [nuevo];
      nextId := nextId + 1;
      reply := Saved("Viaje guardado correctamente", nuevo);
    }
  }
}

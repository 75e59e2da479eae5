/** The validation routes: list the drivers waiting for document review,
    approve one, reject one. `update({ where: { id } })` on a missing id
    throws, which the routes answer with 500. */
module Validacion {
  import opened Common
  import opened Users

  /** The columns `/pendientes` selects. */
  datatype PendingDriver = PendingDriver(id: nat, nombre: string, email: string, docs: Docs)

  datatype Reply = Done(message: string) | Failure(status: int, message: string)

  predicate IsPending(u: Usuario)
  {
    u.rol == "conductor" && u.estadoValidacion == Some("pendiente")
  }

  function Project(u: Usuario): PendingDriver
  {
    PendingDriver(u.id, u.nombre, u.email, u.docs)
  }

  /** GET `/pendientes`: the pending drivers, in table order. */
  function Pendientes(rows: seq<Usuario>): (r: seq<PendingDriver>)
    ensures |r| <= |rows|
    ensures forall p :: p in r <==> exists k :: 0 <= k < |rows| && IsPending(rows[k]) && Project(rows[k]) == p
  {
    if |rows| == 0 then []
    else
      var rest := Pendientes(rows[1..]);
      assert forall k :: 0 <= k < |rows| - 1 ==> rows[1..][k] == rows[k + 1];
      if IsPending(rows[0]) then [Project(rows[0])] + rest else rest
  }

  /** Row `i` with its validation status replaced. */
  function WithEstado(rows: seq<Usuario>, i: nat, estado: string): (r: seq<Usuario>)
    requires i < |rows|
    ensures |r| == |rows| && r[i] == rows[i].(estadoValidacion := Some(estado))
    ensures forall k :: 0 <= k < |rows| && k != i ==> r[k] == rows[k]
  {
    rows[i := rows[i].(estadoValidacion := Some(estado))]
  }

  /** The shared body of `/aprobar/:id` and `/rechazar/:id`. */
  method SetEstado(db: Usuarios, id: int, estado: string, ok: string, err: string) returns (r: Reply)
    requires db.Valid()
    modifies db`rows
    ensures db.Valid()
    ensures FindById(old(db.rows), id).None? ==> r == Failure(500, err) && db.rows == old(db.rows)
    ensures FindById(old(db.rows), id).Some? ==>
              db.rows == WithEstado(old(db.rows), FindById(old(db.rows), id).value, estado) && r == Done(ok)
  {
    var found := FindById(db.rows, id);
    if found.None? {
      return Failure(500, err);
    }
    db.UpdateRow(found.value, db.rows[found.value].(estadoValidacion := Some(estado)));
    r := Done(ok);
  }

  /** POST `/aprobar/:id`. */
  method Aprobar(db: Usuarios, id: int) returns (r: Reply)
    requires db.Valid()
    modifies db`rows
    ensures db.Valid()
    ensures FindById(old(db.rows), id).None? ==>
              r == Failure(500, "Error aprobando conductor") && db.rows == old(db.rows)
    ensures FindById(old(db.rows), id).Some? ==>
              db.rows == WithEstado(old(db.rows), FindById(old(db.rows), id).value, "aprobado") &&
              r == Done("Conductor aprobado")
  {
    r := SetEstado(db, id, "aprobado", "Conductor aprobado", "Error aprobando conductor");
  }

  /** POST `/rechazar/:id`. */
  method Rechazar(db: Usuarios, id: int) returns (r: Reply)
    requires db.Valid()
    modifies db`rows
    ensures db.Valid()
    ensures FindById(old(db.rows), id).None? ==>
              r == Failure(500, "Error rechazando conductor") && db.rows == old(db.rows)
    ensures FindById(old(db.rows), id).Some? ==>
              db.rows == WithEstado(old(db.rows), FindById(old(db.rows), id).value, "rechazado") &&
              r == Done("Conductor rechazado")
  {
    r := SetEstado(db, id, "rechazado", "Conductor rechazado", "Error rechazando conductor");
  }

  /** After an approval or a rejection of row `i` the driver with that id is
      no longer pending, and every other pending driver still is. */
  lemma DecidedNotPending(rows: seq<Usuario>, i: nat, estado: string)
    requires UniqueKeys(rows) && i < |rows|
    requires estado == "aprobado" || estado == "rechazado"
    ensures forall p :: p in Pendientes(WithEstado(rows, i, estado)) ==> p.id != rows[i].id
    ensures forall p :: p in Pendientes(rows) && p.id != rows[i].id ==> p in Pendientes(WithEstado(rows, i, estado))
  {
    var after := WithEstado(rows, i, estado);
    forall p | p in Pendientes(after) ensures p.id != rows[i].id {
      var k :| 0 <= k < |after| && IsPending(after[k]) && Project(after[k]) == p;
      assert k != i;
    }
    forall p | p in Pendientes(rows) && p.id != rows[i].id ensures p in Pendientes(after) {
      var k :| 0 <= k < |rows| && IsPending(rows[k]) && Project(rows[k]) == p;
      assert k != i && after[k] == rows[k];
    }
  }
}

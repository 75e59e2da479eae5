/** The `usuario` table the wallet, validation, authentication and review
    routes share, with Prisma's lookups by unique key. The Prisma schema file
    is not part of this model: the columns are the ones the routes read or
    write. */
module Users {
  import opened Common

  /** Uploaded driver documents (`gs://` references). */
  datatype Docs = Docs(
    identificacion: Option<string>, licencia: Option<string>, poliza: Option<string>,
    domicilio: Option<string>, fotoConductor: Option<string>, vehiculoFotos: Option<string>,
    acreditacionTaxi: Option<string>)

  const NoDocs := Docs(None, None, None, None, None, None, None)

  datatype Usuario = Usuario(
    id: nat, nombre: string, email: string, telefono: string, password: string,
    rol: string, secret2FA: Option<string>, wallet: real,
    estadoValidacion: Option<string>, docs: Docs)

  /** `findUnique({ where: { email } })`, as a position in the table. */
  function FindByEmail(rows: seq<Usuario>, email: string): (r: Option<nat>)
    ensures r.Some? ==> r.value < |rows| && rows[r.value].email == email
    ensures r.None? <==> forall k :: 0 <= k < |rows| ==> rows[k].email != email
  {
    if |rows| == 0 then None
    else if rows[0].email == email then Some(0)
    else match FindByEmail(rows[1..], email)
      case None => None
      case Some(k) => Some(k + 1)
  }

  /** `where: { id }`, as a position in the table. */
  function FindById(rows: seq<Usuario>, id: int): (r: Option<nat>)
    ensures r.Some? ==> r.value < |rows| && rows[r.value].id == id
    ensures r.None? <==> forall k :: 0 <= k < |rows| ==> rows[k].id != id
  {
    if |rows| == 0 then None
    else if rows[0].id == id then Some(0)
    else match FindById(rows[1..], id)
      case None => None
      case Some(k) => Some(k + 1)
  }

  /** `id` and `email` are unique columns. */
  ghost predicate UniqueKeys(rows: seq<Usuario>)
  {
    forall i, j :: 0 <= i < j < |rows| ==> rows[i].id != rows[j].id && rows[i].email != rows[j].email
  }

  /** Lookups by email only depend on the emails. */
  lemma {:induction false} FindByEmailSameEmails(rows: seq<Usuario>, rows': seq<Usuario>, email: string)
    requires |rows| == |rows'|
    requires forall k :: 0 <= k < |rows| ==> rows[k].email == rows'[k].email
    ensures FindByEmail(rows, email) == FindByEmail(rows', email)
    decreases |rows|
  {
    if |rows| > 0 {
      FindByEmailSameEmails(rows[1..], rows'[1..], email);
    }
  }

  /** Lookups by id only depend on the ids. */
  lemma {:induction false} FindByIdSameIds(rows: seq<Usuario>, rows': seq<Usuario>, id: int)
    requires |rows| == |rows'|
    requires forall k :: 0 <= k < |rows| ==> rows[k].id == rows'[k].id
    ensures FindById(rows, id) == FindById(rows', id)
    decreases |rows|
  {
    if |rows| > 0 {
      FindByIdSameIds(rows[1..], rows'[1..], id);
    }
  }

  class Usuarios {
    var rows: seq<Usuario>
    /** The next autoincrement id. */
    var nextId: nat

    ghost predicate Valid()
      reads this
    {
      UniqueKeys(rows) && forall k :: 0 <= k < |rows| ==> rows[k].id < nextId
    }

    constructor ()
      ensures Valid() && rows == [] && nextId == 0
    {
      rows, nextId := [], 0;
    }

    /** Replace one row by a row with the same keys (an `update`). */
    method UpdateRow(i: nat, u: Usuario)
      requires Valid() && i < |rows|
      requires u.id == rows[i].id && u.email == rows[i].email
      modifies this`rows
      ensures Valid()
      ensures rows == old(rows)[i := u]
    {
      rows := rows[i := u];
    }
  }
}

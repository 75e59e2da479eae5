/** The wallet routes: read a user's commission balance, add an amount to it,
    reset it to zero. Prisma's `findUnique`/`update` by email are lookups in
    the user table; an `update` of a missing row throws, which the route
    answers with 500. */
module Wallet {
  import opened Common
  import opened Users

  datatype WalletReply = Balance(balance: real) | Failure(status: int, message: string)

  /** Row `i` with its balance replaced. */
  function WithWallet(rows: seq<Usuario>, i: nat, w: real): (r: seq<Usuario>)
    requires i < |rows|
    ensures |r| == |rows| && r[i].wallet == w
    ensures r[i] == rows[i].(wallet := w)
    ensures forall k :: 0 <= k < |rows| && k != i ==> r[k] == rows[k]
  {
    rows[i := rows[i].(wallet := w)]
  }

  /** GET `/:email`. */
  function GetWallet(rows: seq<Usuario>, email: string): (r: WalletReply)
    ensures r == Failure(404, "Usuario no encontrado") <==> forall k :: 0 <= k < |rows| ==> rows[k].email != email
    ensures r.Balance? ==> exists k :: 0 <= k < |rows| && rows[k].email == email && rows[k].wallet == r.balance
    ensures FindByEmail(rows, email).Some? ==> r == Balance(rows[FindByEmail(rows, email).value].wallet)
  {
    match FindByEmail(rows, email)
    case None => Failure(404, "Usuario no encontrado")
    case Some(i) => Balance(rows[i].wallet)
  }

  /** POST `/sumar/:email` with body `{ monto }`; `None` is an absent `monto`. */
  method Sumar(db: Usuarios, email: string, monto: Option<real>) returns (r: WalletReply)
    requires db.Valid()
    modifies db`rows
    ensures db.Valid()
    ensures monto.None? ==> r == Failure(400, "Monto requerido") && db.rows == old(db.rows)
    ensures monto.Some? && FindByEmail(old(db.rows), email).None? ==>
              r == Failure(500, "Error sumando al wallet") && db.rows == old(db.rows)
    ensures monto.Some? && FindByEmail(old(db.rows), email).Some? ==>
              var i := FindByEmail(old(db.rows), email).value;
              db.rows == WithWallet(old(db.rows), i, old(db.rows)[i].wallet + monto.value) &&
              r == Balance(old(db.rows)[i].wallet + monto.value)
  {
    if monto.None? {
      return Failure(400, "Monto requerido");
    }
    var found := FindByEmail(db.rows, email);
    if found.None? {
      return Failure(500, "Error sumando al wallet");
    }
    var i := found.value;
    var w := db.rows[i].wallet + monto.value;
    db.UpdateRow(i, db.rows[i].(wallet := w));
    r := Balance(w);
  }

  /** POST `/reset/:email`. */
  method Reset(db: Usuarios, email: string) returns (r: WalletReply)
    requires db.Valid()
    modifies db`rows
    ensures db.Valid()
    ensures FindByEmail(old(db.rows), email).None? ==>
              r == Failure(500, "Error reseteando wallet") && db.rows == old(db.rows)
    ensures FindByEmail(old(db.rows), email).Some? ==>
              db.rows == WithWallet(old(db.rows), FindByEmail(old(db.rows), email).value, 0.0) &&
              r == Balance(0.0)
  {
    var found := FindByEmail(db.rows, email);
    if found.None? {
      return Failure(500, "Error reseteando wallet");
    }
    db.UpdateRow(found.value, db.rows[found.value].(wallet := 0.0));
    r := Balance(0.0);
  }

  /** Reading the balance after `sumar` or `reset` has set the row of
      `email` to `w` gives `w`; every other user's balance reads as before. */
  lemma GetAfterUpdate(rows: seq<Usuario>, i: nat, w: real, email: string, other: string)
    requires FindByEmail(rows, email) == Some(i)
    requires other != email
    ensures GetWallet(WithWallet(rows, i, w), email) == Balance(w)
    ensures GetWallet(WithWallet(rows, i, w), other) == GetWallet(rows, other)
  {
    SameLookups(rows, i, w, email);
    SameLookups(rows, i, w, other);
    match FindByEmail(rows, other)
    case None =>
    case Some(j) =>
      assert WithWallet(rows, i, w)[j] == rows[j];
  }

  /** A balance update keeps every lookup by email where it was. */
  lemma SameLookups(rows: seq<Usuario>, i: nat, w: real, e: string)
    requires i < |rows|
    ensures FindByEmail(WithWallet(rows, i, w), e) == FindByEmail(rows, e)
  {
    var after := WithWallet(rows, i, w);
    assert forall k :: 0 <= k < |rows| ==> after[k].email == rows[k].email;
    FindByEmailSameEmails(rows, after, e);
  }
}

/** The review routes: `/crear` stores one review, `/usuario/:id` lists the
    reviews a user received, each with its author's name and email. The
    review's `autor` relation points into the user table; a body whose ids
    are not integers, or whose author is not a user, makes `create` throw,
    which the route answers with 500. */
module Reviews {
  import opened Common
  import opened Users

  /** A JSON value sent as an id: a number, a string, or nothing. */
  datatype IdValue = Num(n: int) | Text(s: string) | Missing

  /** The request body of `/crear`; a `None` rating is JSON `null`. */
  datatype ReviewInput = ReviewInput(
    autorId: IdValue, destinoId: IdValue, viajeId: Option<int>, rating: Option<int>, comentario: string)

  datatype Review = Review(
    id: nat, autorId: int, destinoId: int, viajeId: Option<int>, rating: Option<int>, comentario: string)

  datatype CreateReply = Registered(message: string, review: Review) | Failure(status: int, message: string)

  /** The author columns `include: { autor: { select: … } }` attaches. */
  datatype Author = Author(nombre: string, email: string)

  datatype ListedReview = ListedReview(review: Review, autor: Option<Author>)

  /** Whether `create` accepts the body against the user table. */
  predicate Accepted(users: seq<Usuario>, v: ReviewInput)
  {
    v.autorId.Num? && v.destinoId.Num? && FindById(users, v.autorId.n).Some?
  }

  /** The author a review's `autorId` refers to, if any. */
  function AuthorOf(users: seq<Usuario>, autorId: int): (a: Option<Author>)
    ensures a.Some? <==> exists k :: 0 <= k < |users| && users[k].id == autorId
    ensures a.Some? ==> exists k :: 0 <= k < |users| && users[k].id == autorId &&
                                    a.value == Author(users[k].nombre, users[k].email)
  {
    match FindById(users, autorId)
    case None => None
    case Some(k) => Some(Author(users[k].nombre, users[k].email))
  }

  /** GET `/usuario/:id`: the reviews with that `destinoId`, in table order,
      each with its author. */
  function PorUsuario(reviews: seq<Review>, users: seq<Usuario>, destinoId: int): (r: seq<ListedReview>)
    ensures forall x :: x in r ==> x.review in reviews && x.review.destinoId == destinoId &&
                                    x.autor == AuthorOf(users, x.review.autorId)
    ensures forall v :: v in reviews && v.destinoId == destinoId ==>
                          ListedReview(v, AuthorOf(users, v.autorId)) in r
    ensures |r| <= |reviews|
  {
    if |reviews| == 0 then []
    else
      var rest := PorUsuario(reviews[1..], users, destinoId);
      assert forall v :: v in reviews <==> v == reviews[0] || v in reviews[1..];
      if reviews[0].destinoId == destinoId
      then [ListedReview(reviews[0], AuthorOf(users, reviews[0].autorId))] + rest
      else rest
  }

  /** Every review's author is a user (the foreign key `create` enforces). */
  ghost predicate AuthorsExist(reviews: seq<Review>, users: seq<Usuario>)
  {
    forall k :: 0 <= k < |reviews| ==> FindById(users, reviews[k].autorId).Some?
  }

  /** With the foreign key in place every listed review carries its author's
      name and email. */
  lemma ListedAuthorsPresent(reviews: seq<Review>, users: seq<Usuario>, destinoId: int)
    requires AuthorsExist(reviews, users)
    ensures forall x :: x in PorUsuario(reviews, users, destinoId) ==>
              x.autor.Some? &&
              exists k :: 0 <= k < |users| && users[k].id == x.review.autorId &&
                          x.autor.value == Author(users[k].nombre, users[k].email)
  {
    forall x | x in PorUsuario(reviews, users, destinoId)
      ensures x.autor.Some?
    {
      var k :| 0 <= k < |reviews| && reviews[k] == x.review;
      assert FindById(users, reviews[k].autorId).Some?;
    }
  }

  class ReviewTable {
    var rows: seq<Review>
    /** The next autoincrement id. */
    var nextId: nat

    ghost predicate Valid()
      reads this
    {
      forall k :: 0 <= k < |rows| ==> rows[k].id < nextId
    }

    constructor ()
      ensures Valid() && rows == [] && nextId == 0
    {
      rows, nextId := [], 0;
    }

    /** POST `/crear`: store exactly the five body fields under a fresh id,
        or refuse with 500 and store nothing. */
    method Crear(users: seq<Usuario>, v: ReviewInput) returns (reply: CreateReply)
      requires Valid()
      modifies this
      ensures Valid()
      ensures Accepted(users, v) ==>
                var nuevo := Review(old(nextId), v.autorId.n, v.destinoId.n, v.viajeId, v.rating, v.comentario);
                rows == old(rows) + [nuevo] && nextId == old(nextId) + 1 &&
                reply == Registered("Review registrada", nuevo)
      ensures !Accepted(users, v) ==>
                rows == old(rows) && nextId == old(nextId) && reply == Failure(500, "Error al registrar review")
    {
      if !Accepted(users, v) {
        return Failure(500, "Error al registrar review");
      }
      var nuevo := Review(nextId, v.autorId.n, v.destinoId.n, v.viajeId, v.rating, v.comentario);
      rows := rows + [nuevo];
      nextId := nextId + 1;
      reply := Registered("Review registrada", nuevo);
    }
  }

  /** A stored review keeps the author foreign key holding. */
  lemma CrearKeepsAuthors(reviews: seq<Review>, users: seq<Usuario>, v: ReviewInput, id: nat)
    requires AuthorsExist(reviews, users) && Accepted(users, v)
    ensures AuthorsExist(reviews + [Review(id, v.autorId.n, v.destinoId.n, v.viajeId, v.rating, v.comentario)], users)
  {
    var after := reviews + [Review(id, v.autorId.n, v.destinoId.n, v.viajeId, v.rating, v.comentario)];
    forall k | 0 <= k < |after| ensures FindById(users, after[k].autorId).Some? {
      if k < |reviews| {
        assert after[k] == reviews[k];
      }
    }
  }
}

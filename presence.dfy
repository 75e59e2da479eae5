/** The socket server of `index.js`: a registry of active drivers keyed by
    socket id, filled by `conductor_activo`, emptied by `disconnect`, and a
    `buscar_conductor` handler that forwards the ride request to every
    registered socket as `nuevo_viaje`. Delivery is an output log of
    (recipient, notification) pairs; `Date.now()` is a parameter. */
module Presence {
  import opened Common

  type ConnId = string

  /** The presence payload the driver client sends with `conductor_activo`. */
  datatype DriverInfo = DriverInfo(
    email: Option<string>, nombre: Option<string>, lat: real, lng: real,
    capacidad: int, sexo: string, aceptaTours: bool)

  /** The ride request the passenger client sends with `buscar_conductor`. */
  datatype RideRequest = RideRequest(
    pasajero: string, origen: Option<Point>, destino: Option<Point>,
    distancia: string, duracion: string,
    origenTexto: Option<string>, destinoTexto: Option<string>,
    costo: real, preferenciaSexo: string, pasajeros: int)

  /** The event name under which the server fans a request out. */
  const NuevoViajeEvent := "nuevo_viaje"

  /** `nuevo_viaje`: the request's fields unchanged, plus `timestamp`. */
  datatype Notification = NuevoViaje(viaje: RideRequest, timestamp: int)

  datatype Delivery = Delivery(to: ConnId, notification: Notification)

  predicate Distinct<T(==)>(s: seq<T>)
  {
    forall i, j :: 0 <= i < j < |s| ==> s[i] != s[j]
  }

  /** The deliveries of one `buscar_conductor`: one per registered socket, in
      the order `Object.entries` visits them. */
  function FanOut(ids: seq<ConnId>, viaje: RideRequest, now: int): (out: seq<Delivery>)
    ensures |out| == |ids|
    ensures forall k :: 0 <= k < |ids| ==> out[k] == Delivery(ids[k], NuevoViaje(viaje, now))
  {
    if |ids| == 0 then [] else [Delivery(ids[0], NuevoViaje(viaje, now))] + FanOut(ids[1..], viaje, now)
  }

  /** How many of `out` go to `id`. */
  function CountTo(out: seq<Delivery>, id: ConnId): nat
  {
    if |out| == 0 then 0 else (if out[0].to == id then 1 else 0) + CountTo(out[1..], id)
  }

  /** `ids` without `id` (the key order after `delete`). */
  function Without(ids: seq<ConnId>, id: ConnId): (r: seq<ConnId>)
    ensures forall x :: x in r <==> x in ids && x != id
    ensures id !in ids ==> r == ids
  {
    if |ids| == 0 then []
    else if ids[0] == id then Without(ids[1..], id)
    else [ids[0]] + Without(ids[1..], id)
  }

  lemma {:induction false} CountToAppend(a: seq<Delivery>, b: seq<Delivery>, id: ConnId)
    ensures CountTo(a + b, id) == CountTo(a, id) + CountTo(b, id)
    decreases |a|
  {
    if |a| > 0 {
      assert (a + b)[0] == a[0];
      assert (a + b)[1..] == a[1..] + b;
      CountToAppend(a[1..], b, id);
    } else {
      assert a + b == b;
    }
  }

  /** Every socket in a duplicate-free key list receives exactly one
      notification and no other socket receives any. */
  lemma {:induction false} FanOutExactlyOnce(ids: seq<ConnId>, viaje: RideRequest, now: int, id: ConnId)
    requires Distinct(ids)
    ensures CountTo(FanOut(ids, viaje, now), id) == if id in ids then 1 else 0
    decreases |ids|
  {
    if |ids| > 0 {
      assert Distinct(ids[1..]);
      FanOutExactlyOnce(ids[1..], viaje, now, id);
      assert ids[0] == id ==> id !in ids[1..];
      assert id in ids <==> id == ids[0] || id in ids[1..];
    }
  }

  lemma {:induction false} WithoutDistinct(ids: seq<ConnId>, id: ConnId)
    requires Distinct(ids)
    ensures Distinct(Without(ids, id))
    decreases |ids|
  {
    if |ids| > 0 {
      assert Distinct(ids[1..]);
      WithoutDistinct(ids[1..], id);
      assert ids[0] !in ids[1..];
      assert ids[0] !in Without(ids[1..], id);
    }
  }

  /** Removing twice is removing once. */
  lemma {:induction false} WithoutIdempotent(ids: seq<ConnId>, id: ConnId)
    ensures Without(Without(ids, id), id) == Without(ids, id)
  {
  }

  class Registry {
    /** `conductoresActivos`: socket id -> latest presence payload. */
    var conductores: map<ConnId, DriverInfo>
    /** The registry's keys in insertion order, the order `Object.entries` yields. */
    var order: seq<ConnId>
    /** Every notification the server has emitted, in order. */
    var sent: seq<Delivery>

    ghost predicate Valid()
      reads this
    {
      && Distinct(order)
      && (forall k :: 0 <= k < |order| ==> order[k] in conductores)
      && (forall id :: id in conductores ==> id in order)
    }

    constructor ()
      ensures Valid()
      ensures conductores == map[] && order == [] && sent == []
    {
      conductores, order, sent := map[], [], [];
    }

    /** `conductor_activo`: store the payload under the sender's socket id,
        overwriting an earlier entry for that id in place. */
    method ConductorActivo(socketId: ConnId, data: DriverInfo)
      requires Valid()
      modifies this
      ensures Valid()
      ensures conductores == old(conductores)[socketId := data]
      ensures order == if socketId in old(conductores) then old(order) else old(order) + [socketId]
      ensures sent == old(sent)
    {
      if socketId !in conductores {
        order := order + [socketId];
      }
      conductores := conductores[socketId := data];
    }

    /** `buscar_conductor`: send `nuevo_viaje` to every registered socket,
        without looking at location, capacity or gender. */
    method BuscarConductor(viaje: RideRequest, now: int)
      requires Valid()
      modifies this`sent
      ensures sent == old(sent) + FanOut(order, viaje, now)
    {
      var i := 0;
      while i < |order|
        invariant 0 <= i <= |order|
        invariant sent == old(sent) + FanOut(order[..i], viaje, now)
      {
        assert order[..i + 1] == order[..i] + [order[i]];
        FanOutAppend(order[..i], order[i], viaje, now);
        sent := sent + [Delivery(order[i], NuevoViaje(viaje, now))];
        i := i + 1;
      }
      assert order[..i] == order;
    }

    /** `disconnect`: forget the sender's entry if it has one; other entries
        are untouched. */
    method Disconnect(socketId: ConnId)
      requires Valid()
      modifies this`conductores, this`order
      ensures Valid()
      ensures conductores == old(conductores) - {socketId}
      ensures order == Without(old(order), socketId)
      ensures socketId !in old(conductores) ==> conductores == old(conductores) && order == old(order)
    {
      if socketId in conductores {
        WithoutDistinct(order, socketId);
        ghost var before := order;
        conductores := conductores - {socketId};
        order := Without(order, socketId);
        forall k | 0 <= k < |order| ensures order[k] in conductores {
          assert order[k] in order;
          assert order[k] in before;
        }
      }
    }
  }

  lemma {:induction false} FanOutAppend(ids: seq<ConnId>, id: ConnId, viaje: RideRequest, now: int)
    ensures FanOut(ids + [id], viaje, now) == FanOut(ids, viaje, now) + [Delivery(id, NuevoViaje(viaje, now))]
  {
    var a := FanOut(ids + [id], viaje, now);
    var b := FanOut(ids, viaje, now) + [Delivery(id, NuevoViaje(viaje, now))];
    assert |a| == |b|;
    forall k | 0 <= k < |a| ensures a[k] == b[k] {
      if k < |ids| { assert (ids + [id])[k] == ids[k]; }
    }
  }

  /** After one `buscar_conductor` on a registry, the log has grown by
      exactly one `nuevo_viaje` for each registered socket, whatever its payload
      says about location, capacity or gender, and by none for any other socket. */
  lemma BroadcastReachesExactlyRegistered(conductores: map<ConnId, DriverInfo>, order: seq<ConnId>,
                                          before: seq<Delivery>, viaje: RideRequest, now: int, id: ConnId)
    requires Distinct(order)
    requires forall k :: 0 <= k < |order| ==> order[k] in conductores
    requires forall x :: x in conductores ==> x in order
    ensures CountTo(before + FanOut(order, viaje, now), id)
         == CountTo(before, id) + if id in conductores then 1 else 0
  {
    CountToAppend(before, FanOut(order, viaje, now), id);
    FanOutExactlyOnce(order, viaje, now, id);
  }
}

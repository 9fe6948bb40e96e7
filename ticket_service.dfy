/** TicketServiceImpl: tickets in a store keyed by id, the tickets caches (`ticket` by id and
    `ticket_status` by the status filter text) and the audit queue the tickets advice publishes to. */
module TicketServices {
  import opened Errors
  import opened Tickets
  import Cache
  import CacheConfig
  import Audit
  import ExceptionHandling

  /** A value in the tickets caches: `ticket` holds one TicketDTO, `ticket_status` a filter result. */
  datatype Cached = OneTicket(ticket: TicketDto) | TicketPage(page: map<Uuid, TicketDto>)

  const CrearTicketAnnotation: Audit.AuditLabel := Audit.AuditLabel("ms-tickets", "CREAR_TICKET")
  const ActualizarTicketAnnotation: Audit.AuditLabel := Audit.AuditLabel("ms-tickets", "ACTUALIZAR_TICKET")
  const EliminarTicketAnnotation: Audit.AuditLabel := Audit.AuditLabel("ms-tickets", "ELIMINAR_TICKET")

  /** Message of the RuntimeException wrapping any failure while creating a ticket; `cause` is the
      failure's message as Java concatenates it (a null message reads "null"). */
  function CreateFailedMessage(cause: string): string {
    WithSubject("Error al crear el ticket: ", cause)
  }

  /** Message of the RuntimeException for a status no constant matches. The source file holds the
      accented letter as the two characters U+221A U+00B0, and so does this text. */
  function InvalidStatusMessage(status: string): string {
    WithSubject("Estatus inv√°lido: ", status)
  }

  /** The fixed beginning of the message Spring's cache interceptor gives the IllegalArgumentException
      for a cache key that evaluates to null. */
  const NullKeyMessage := "Null key returned for cache operation"

  /** The filter criteria: a ticket matches when it has the status (if one is given) and belongs
      to the user (if one is given). */
  predicate Matches(t: TicketEntity, status: Option<Status>, usuarioId: Option<Uuid>) {
    (status.None? || t.status == status.value) && (usuarioId.None? || t.usuarioId == usuarioId.value)
  }

  /** `findByStatusAndUsuarioId(status, usuarioId).map(toDTO)`. */
  function FindByStatusAndUsuarioId(store: map<Uuid, TicketEntity>, status: Status, usuarioId: Uuid): map<Uuid, TicketDto> {
    map id | id in store && store[id].status == status && store[id].usuarioId == usuarioId :: ToDto(store[id])
  }

  /** `findByStatus(status).map(toDTO)`. */
  function FindByStatus(store: map<Uuid, TicketEntity>, status: Status): map<Uuid, TicketDto> {
    map id | id in store && store[id].status == status :: ToDto(store[id])
  }

  /** `findByUsuarioId(usuarioId).map(toDTO)`. */
  function FindByUsuarioId(store: map<Uuid, TicketEntity>, usuarioId: Uuid): map<Uuid, TicketDto> {
    map id | id in store && store[id].usuarioId == usuarioId :: ToDto(store[id])
  }

  /** `findAll().map(toDTO)`. */
  function FindAll(store: map<Uuid, TicketEntity>): map<Uuid, TicketDto> {
    map id | id in store :: ToDto(store[id])
  }

  /** The body of `filtrarTickets`: one repository query per combination of present arguments; a
      status that does not name a constant once upper-cased fails with "Estatus inválido". */
  function FilterDispatch(store: map<Uuid, TicketEntity>, status: Option<string>, usuarioId: Option<Uuid>)
    : (r: Result<map<Uuid, TicketDto>>)
    ensures r.Err? <==> status.Some? && ParseStatus(status.value).None?
    ensures r.Err? ==> r.error == Runtime(InvalidStatusMessage(status.value))
  {
    if status.Some? && usuarioId.Some? then
      match ParseStatus(status.value)
      case None => Err(Runtime(InvalidStatusMessage(status.value)))
      case Some(st) => Ok(FindByStatusAndUsuarioId(store, st, usuarioId.value))
    else if status.Some? then
      match ParseStatus(status.value)
      case None => Err(Runtime(InvalidStatusMessage(status.value)))
      case Some(st) => Ok(FindByStatus(store, st))
    else if usuarioId.Some? then
      Ok(FindByUsuarioId(store, usuarioId.value))
    else
      Ok(FindAll(store))
  }

  /** Whichever branch runs, the filter returns exactly the DTOs of the stored tickets matching
      the parsed status and the user, and nothing else. */
  lemma FilterReturnsExactlyMatching(store: map<Uuid, TicketEntity>, status: Option<string>, usuarioId: Option<Uuid>)
    requires status.Some? ==> ParseStatus(status.value).Some?
    ensures var criterion := if status.Some? then ParseStatus(status.value) else None;
            var r := FilterDispatch(store, status, usuarioId);
            && r.Ok?
            && (forall id :: id in r.value <==> id in store && Matches(store[id], criterion, usuarioId))
            && (forall id :: id in r.value ==> r.value[id] == ToDto(store[id]))
  {
  }

  class TicketService {
    var store: map<Uuid, TicketEntity>
    var cache: Cache.Store<Cached>
    var audit: seq<Audit.AuditEvent>

    /** Stored tickets carry their own key as id, and each cache holds its kind of value. */
    ghost predicate Valid()
      reads this
    {
      && (forall id :: id in store ==> store[id].id == Some(id))
      && (forall p :: p in cache && p.0 == CacheConfig.TicketCache ==> cache[p].value.OneTicket?)
      && (forall p :: p in cache && p.0 == CacheConfig.TicketStatusCache ==> cache[p].value.TicketPage?)
    }

    constructor ()
      ensures Valid() && store == map[] && cache == map[] && audit == []
    {
      store, cache, audit := map[], map[], [];
    }

    /** `crearTicket(dto)`: saves one open ticket under the generated id and publishes CREAR_TICKET;
        a failure while saving (`saveFault`, its message) surfaces as a RuntimeException wrapping
        that message, and nothing is saved or published. */
    method CrearTicket(dto: CreateTicketDto, newId: Uuid, saveFault: Option<string>, ctx: Audit.Context)
      returns (r: Result<TicketDto>)
      requires Valid()
      requires newId !in store   // the store generates an unused id
      modifies this
      ensures Valid()
      ensures cache == old(cache)
      ensures r.Err? <==> saveFault.Some?
      ensures saveFault.Some? ==>
                r.error == Runtime(CreateFailedMessage(saveFault.value)) && store == old(store) && audit == old(audit)
      ensures saveFault.None? ==>
                && store == old(store)[newId := ToEntity(dto, ctx.now).(id := Some(newId))]
                && r.value == ToDto(store[newId])
                && audit == Audit.Publish(old(audit),
                     Audit.TicketsAdvice(Some(Audit.Request(ctx.authorization)), CrearTicketAnnotation, ctx, Audit.CreateTicketArg(dto)))
    {
      var entity := ToEntity(dto, ctx.now);
      if saveFault.Some? {
        return Err(Runtime(CreateFailedMessage(saveFault.value)));
      }
      entity := entity.(id := Some(newId));
      store := store[newId := entity];
      r := Ok(ToDto(entity));
      audit := Audit.Publish(audit,
        Audit.TicketsAdvice(Some(Audit.Request(ctx.authorization)), CrearTicketAnnotation, ctx, Audit.CreateTicketArg(dto)));
    }

    /** `actualizarTicket(id, dto)`: not-found for an unknown id; a null status throws in the mapper
        and the transaction rolls back; otherwise rewrites description, status and update time,
        evicts `ticket[id]` only, and publishes ACTUALIZAR_TICKET. A failed call changes nothing. */
    method ActualizarTicket(id: Uuid, dto: UpdateTicketDto, ctx: Audit.Context) returns (r: Result<TicketDto>)
      requires Valid()
      modifies this
      ensures Valid()
      ensures id !in old(store) ==> r == Err(TicketNotFound(TicketNotFoundMessage(id)))
      ensures id in old(store) && dto.status.None? ==> r == Err(NullPointer)
      ensures r.Ok? <==> id in old(store) && dto.status.Some?
      ensures r.Err? ==> store == old(store) && cache == old(cache) && audit == old(audit)
      ensures r.Ok? ==>
                && store == old(store)[id := ActualizarEntidad(old(store)[id], dto, ctx.now).value]
                && r.value == ToDto(store[id])
                && cache == Cache.Evict(old(cache), CacheConfig.TicketCache, id)
                && audit == Audit.Publish(old(audit),
                     Audit.TicketsAdvice(Some(Audit.Request(ctx.authorization)), ActualizarTicketAnnotation, ctx, Audit.IdArg(id)))
    {
      if id !in store {
        return Err(TicketNotFound(TicketNotFoundMessage(id)));
      }
      var updated := ActualizarEntidad(store[id], dto, ctx.now);
      if updated.Err? {
        return Err(updated.error);
      }
      store := store[id := updated.value];
      r := Ok(ToDto(updated.value));
      cache := Cache.Evict(cache, CacheConfig.TicketCache, id);
      audit := Audit.Publish(audit,
        Audit.TicketsAdvice(Some(Audit.Request(ctx.authorization)), ActualizarTicketAnnotation, ctx, Audit.IdArg(id)));
    }

    /** `eliminarTicket(id)` as written: not-found for an unknown id; otherwise deletes exactly that
        ticket and publishes ELIMINAR_TICKET. No cache entry is evicted. */
    method EliminarTicket(id: Uuid, ctx: Audit.Context) returns (r: Result<()>)
      requires Valid()
      modifies this
      ensures Valid()
      ensures cache == old(cache)
      ensures r.Err? <==> id !in old(store)
      ensures r.Err? ==> r.error == TicketNotFound(TicketNotFoundMessage(id)) && store == old(store) && audit == old(audit)
      ensures r.Ok? ==>
                && store == old(store) - {id}
                && audit == Audit.Publish(old(audit),
                     Audit.TicketsAdvice(Some(Audit.Request(ctx.authorization)), EliminarTicketAnnotation, ctx, Audit.IdArg(id)))
    {
      if id !in store {
        return Err(TicketNotFound(TicketNotFoundMessage(id)));
      }
      store := store - {id};
      r := Ok(());
      audit := Audit.Publish(audit,
        Audit.TicketsAdvice(Some(Audit.Request(ctx.authorization)), EliminarTicketAnnotation, ctx, Audit.IdArg(id)));
    }

    /** `eliminarTicket(id)` with the `ticket[id]` eviction its siblings declare: the same, except
        that the deleted ticket's cached DTO goes too. */
    method EliminarTicketEvicting(id: Uuid, ctx: Audit.Context) returns (r: Result<()>)
      requires Valid()
      modifies this
      ensures Valid()
      ensures r.Err? <==> id !in old(store)
      ensures r.Err? ==>
                && r.error == TicketNotFound(TicketNotFoundMessage(id))
                && store == old(store) && cache == old(cache) && audit == old(audit)
      ensures r.Ok? ==>
                && store == old(store) - {id}
                && cache == Cache.Evict(old(cache), CacheConfig.TicketCache, id)
                && audit == Audit.Publish(old(audit),
                     Audit.TicketsAdvice(Some(Audit.Request(ctx.authorization)), EliminarTicketAnnotation, ctx, Audit.IdArg(id)))
    {
      if id !in store {
        return Err(TicketNotFound(TicketNotFoundMessage(id)));
      }
      store := store - {id};
      r := Ok(());
      cache := Cache.Evict(cache, CacheConfig.TicketCache, id);
      audit := Audit.Publish(audit,
        Audit.TicketsAdvice(Some(Audit.Request(ctx.authorization)), EliminarTicketAnnotation, ctx, Audit.IdArg(id)));
    }

    /** `obtenerTicketPorId(id)`, cached in `ticket` under the id: a live entry is returned as is;
        otherwise the stored ticket's DTO is returned and cached, or TicketNotFound is thrown and
        nothing is cached. */
    method ObtenerTicketPorId(id: Uuid, now: nat) returns (r: Result<TicketDto>)
      requires Valid()
      modifies this`cache
      ensures Valid()
      ensures var hit := Cache.Lookup(old(cache), CacheConfig.TicketCache, id, now);
              && (hit.Some? ==> r == Ok(hit.value.ticket) && cache == old(cache))
              && (hit.None? && id in store ==>
                    && r == Ok(ToDto(store[id]))
                    && cache == Cache.Put(old(cache), CacheConfig.TicketCache, id, OneTicket(r.value),
                                          now, CacheConfig.Seconds(CacheConfig.TicketTtlMinutes(CacheConfig.TicketCache))))
              && (hit.None? && id !in store ==>
                    r == Err(TicketNotFound(TicketNotFoundMessage(id))) && cache == old(cache))
    {
      var hit := Cache.Lookup(cache, CacheConfig.TicketCache, id, now);
      if hit.Some? {
        return Ok(hit.value.ticket);
      }
      if id !in store {
        return Err(TicketNotFound(TicketNotFoundMessage(id)));
      }
      var dto := ToDto(store[id]);
      cache := Cache.Put(cache, CacheConfig.TicketCache, id, OneTicket(dto),
                         now, CacheConfig.Seconds(CacheConfig.TicketTtlMinutes(CacheConfig.TicketCache)));
      r := Ok(dto);
    }

    /** `filtrarTickets(status, usuarioId)` as its annotation evidently intends, with the broken
        `ticket_usuarioid` operation left out. With a status, the result is cached in `ticket_status`
        under the status text alone: a live entry is returned whatever the user filter is, and a
        computed result is cached unless the call fails. With no status there is no key, and the
        query runs uncached. */
    method FiltrarTickets(status: Option<string>, usuarioId: Option<Uuid>, now: nat)
      returns (r: Result<map<Uuid, TicketDto>>)
      requires Valid()
      modifies this`cache
      ensures Valid()
      ensures status.None? ==> r == FilterDispatch(store, status, usuarioId) && cache == old(cache)
      ensures status.Some? ==>
                var hit := Cache.Lookup(old(cache), CacheConfig.TicketStatusCache, status.value, now);
                && (hit.Some? ==> r == Ok(hit.value.page) && cache == old(cache))
                && (hit.None? ==> r == FilterDispatch(store, status, usuarioId))
                && (hit.None? && r.Ok? ==>
                      cache == Cache.Put(old(cache), CacheConfig.TicketStatusCache, status.value, TicketPage(r.value),
                                         now, CacheConfig.Seconds(CacheConfig.TicketTtlMinutes(CacheConfig.TicketStatusCache))))
                && (r.Err? ==> cache == old(cache))
    {
      if status.Some? {
        var hit := Cache.Lookup(cache, CacheConfig.TicketStatusCache, status.value, now);
        if hit.Some? {
          return Ok(hit.value.page);
        }
      }
      r := FilterDispatch(store, status, usuarioId);
      if status.Some? && r.Ok? {
        cache := Cache.Put(cache, CacheConfig.TicketStatusCache, status.value, TicketPage(r.value),
                           now, CacheConfig.Seconds(CacheConfig.TicketTtlMinutes(CacheConfig.TicketStatusCache)));
      }
    }

    /** `filtrarTickets(status, usuarioId)` as annotated. Spring's caching interceptor computes the
        key of each `@Cacheable` operation in turn before the body runs, and rejects a null key with
        an IllegalArgumentException. `#status` is null when no status is given, and `#usuarioid`
        names no parameter, so it is always null: only a live `ticket_status` entry gets an answer,
        every other call fails before the query. Nothing is ever cached. */
    method FiltrarTicketsAsWritten(status: Option<string>, usuarioId: Option<Uuid>, now: nat)
      returns (r: Result<map<Uuid, TicketDto>>)
      requires Valid()
      ensures status.Some? && Cache.Lookup(cache, CacheConfig.TicketStatusCache, status.value, now).Some? ==>
                r == Ok(Cache.Lookup(cache, CacheConfig.TicketStatusCache, status.value, now).value.page)
      ensures status.None? || Cache.Lookup(cache, CacheConfig.TicketStatusCache, status.value, now).None? ==>
                r == Err(IllegalArgument(NullKeyMessage))
    {
      if status.None? {
        return Err(IllegalArgument(NullKeyMessage));
      }
      var hit := Cache.Lookup(cache, CacheConfig.TicketStatusCache, status.value, now);
      if hit.Some? {
        return Ok(hit.value.page);
      }
      r := Err(IllegalArgument(NullKeyMessage));
    }
  }

  /** Create, read (which caches), update, read again: the second read sees the update, because
      the update evicts `ticket[id]`. */
  method ReadAfterUpdateIsFresh(dto: CreateTicketDto, id: Uuid, change: UpdateTicketDto, ctx: Audit.Context)
    returns (first: Result<TicketDto>, second: Result<TicketDto>)
    requires change.status.Some?
    ensures first.Ok? && first.value.descripcion == dto.descripcion && first.value.status == DtoStatus.ABIERTO
    ensures second.Ok? && second.value.descripcion == change.descripcion && second.value.status == change.status.value
  {
    var service := new TicketService();
    var created := service.CrearTicket(dto, id, None, ctx);
    first := service.ObtenerTicketPorId(id, ctx.now);
    var updated := service.ActualizarTicket(id, change, ctx);
    second := service.ObtenerTicketPorId(id, ctx.now);
    UpdatedDtoReflectsRequest(ToEntity(dto, ctx.now).(id := Some(id)), change, ctx.now);
  }

  /** As written: a ticket read (and so cached) before its deletion is still returned by id after
      the deletion succeeds, until its 30-minute entry expires. */
  method ReadAfterDeleteIsStale(dto: CreateTicketDto, id: Uuid, ctx: Audit.Context)
    returns (deleted: Result<()>, afterDelete: Result<TicketDto>)
    ensures deleted.Ok?
    ensures afterDelete == Ok(ToDto(ToEntity(dto, ctx.now).(id := Some(id))))
  {
    var service := new TicketService();
    var created := service.CrearTicket(dto, id, None, ctx);
    var before := service.ObtenerTicketPorId(id, ctx.now);
    deleted := service.EliminarTicket(id, ctx);
    afterDelete := service.ObtenerTicketPorId(id, ctx.now);
  }

  /** With the eviction, the same sequence ends in TicketNotFound. */
  method ReadAfterEvictingDeleteFails(dto: CreateTicketDto, id: Uuid, ctx: Audit.Context)
    returns (deleted: Result<()>, afterDelete: Result<TicketDto>)
    ensures deleted.Ok?
    ensures afterDelete == Err(TicketNotFound(TicketNotFoundMessage(id)))
  {
    var service := new TicketService();
    var created := service.CrearTicket(dto, id, None, ctx);
    var before := service.ObtenerTicketPorId(id, ctx.now);
    deleted := service.EliminarTicketEvicting(id, ctx);
    afterDelete := service.ObtenerTicketPorId(id, ctx.now);
  }

  /** The `ticket_status` key is the status text alone: after one user's open tickets are filtered,
      the same status filter for another user returns the first user's tickets. */
  method FilterCacheIgnoresUser(first: CreateTicketDto, second: CreateTicketDto, id1: Uuid, id2: Uuid, ctx: Audit.Context)
    returns (forFirst: Result<map<Uuid, TicketDto>>, forSecond: Result<map<Uuid, TicketDto>>)
    requires id1 != id2 && first.usuarioId != second.usuarioId
    ensures forFirst.Ok? && id1 in forFirst.value && id2 !in forFirst.value
    ensures forSecond == forFirst
  {
    var service := new TicketService();
    var c1 := service.CrearTicket(first, id1, None, ctx);
    var c2 := service.CrearTicket(second, id2, None, ctx);
    ParseStatusIgnoresCase("ABIERTO", Status.ABIERTO);
    forFirst := service.FiltrarTickets(Some("ABIERTO"), Some(first.usuarioId), ctx.now);
    forSecond := service.FiltrarTickets(Some("ABIERTO"), Some(second.usuarioId), ctx.now);
  }

  /** As written: after a ticket is created, every filter call fails, whatever its arguments, and
      the exception handler turns the failure into a 400 carrying Spring's message. The handler is
      the one under `com.tickets.users.exception`, taken to apply to the tickets controllers too. */
  method FilterFailsAsWritten(dto: CreateTicketDto, id: Uuid, status: Option<string>, usuarioId: Option<Uuid>,
                              ctx: Audit.Context)
    returns (r: Result<map<Uuid, TicketDto>>)
    ensures r == Err(IllegalArgument(NullKeyMessage))
    ensures ExceptionHandling.Respond(r.error)
            == ExceptionHandling.Response(ExceptionHandling.BadRequest, ExceptionHandling.ErrorBody(NullKeyMessage))
  {
    var service := new TicketService();
    var created := service.CrearTicket(dto, id, None, ctx);
    r := service.FiltrarTicketsAsWritten(status, usuarioId, ctx.now);
  }

  /** With the `ticket_usuarioid` operation left out, the same call filtering by the ticket's owner
      alone returns exactly that ticket. */
  method FilterByOwnerAnswers(dto: CreateTicketDto, id: Uuid, ctx: Audit.Context)
    returns (r: Result<map<Uuid, TicketDto>>)
    ensures r == Ok(map[id := ToDto(ToEntity(dto, ctx.now).(id := Some(id)))])
  {
    var service := new TicketService();
    var created := service.CrearTicket(dto, id, None, ctx);
    var e := ToEntity(dto, ctx.now).(id := Some(id));
    assert service.store == map[id := e];
    assert FindByUsuarioId(service.store, dto.usuarioId) == map[id := ToDto(e)] by {
      assert FindByUsuarioId(service.store, dto.usuarioId).Keys == {id};
    }
    r := service.FiltrarTickets(None, Some(dto.usuarioId), ctx.now);
  }
}

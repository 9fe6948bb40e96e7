/** UserServiceImpl: users in a store keyed by id, two caches (`usuario` by id, `usuario_email`
    by e-mail) and the audit queue the users advice publishes to. */
module UserServices {
  import opened Errors
  import opened Users
  import Cache
  import CacheConfig
  import Audit

  /** A value in the users caches: `usuario` holds UserDTOs, `usuario_email` AuthUserDTOs. */
  datatype Cached = CachedUser(user: UserDto) | CachedAuth(auth: AuthUserDto)

  const CrearUsuarioAnnotation: Audit.AuditLabel := Audit.AuditLabel("ms-users", "CREAR_USUARIO")
  const ActualizarUsuarioAnnotation: Audit.AuditLabel := Audit.AuditLabel("ms-users", "ACTUALIZAR_USUARIO")

  /** The `unique = true` constraint on the e-mail column. */
  ghost predicate EmailsUnique(store: map<Uuid, UserEntity>) {
    forall a, b :: a in store && b in store && a != b ==> store[a].email != store[b].email
  }

  /** Some stored user has this e-mail. */
  predicate EmailTaken(store: map<Uuid, UserEntity>, email: string) {
    exists id :: id in store && store[id].email == email
  }

  /** `userRepository.findByEmail(email)`. */
  function FindByEmail(store: map<Uuid, UserEntity>, email: string): (r: Option<UserEntity>)
    requires EmailsUnique(store)
    ensures r.Some? <==> EmailTaken(store, email)
    ensures r.Some? ==> r.value.email == email && r.value in store.Values
  {
    if EmailTaken(store, email) then
      var id :| id in store && store[id].email == email;
      Some(store[id])
    else None
  }

  /** Saving a user whose e-mail nobody has keeps e-mails unique. */
  lemma InsertKeepsEmailsUnique(store: map<Uuid, UserEntity>, newId: Uuid, e: UserEntity)
    requires EmailsUnique(store)
    requires newId !in store && !EmailTaken(store, e.email)
    ensures EmailsUnique(store[newId := e])
  {
  }

  /** Rewriting a user with its own e-mail, or with one nobody has, keeps e-mails unique. */
  lemma UpdateKeepsEmailsUnique(store: map<Uuid, UserEntity>, id: Uuid, e: UserEntity)
    requires EmailsUnique(store) && id in store
    requires e.email == store[id].email || !EmailTaken(store, e.email)
    ensures EmailsUnique(store[id := e])
  {
    var s := store[id := e];
    forall a, b | a in s && b in s && a != b ensures s[a].email != s[b].email {
      if a == id {
        assert s[b] == store[b];
      } else if b == id {
        assert s[a] == store[a];
      }
    }
  }

  /** The evictions of `actualizarUsuario`: `usuario[id]` and all of `usuario_email` go, every
      other entry stays as it was, and a later read of the user misses. */
  lemma UpdateEvictions(c: Cache.Store<Cached>, id: Uuid, t: nat)
    ensures var c' := Cache.EvictAll(Cache.Evict(c, CacheConfig.UserCache, id), CacheConfig.UserEmailCache);
            && (forall p :: p in c' <==> p in c && p != (CacheConfig.UserCache, id) && p.0 != CacheConfig.UserEmailCache)
            && (forall p :: p in c' ==> c'[p] == c[p])
            && Cache.Lookup(c', CacheConfig.UserCache, id, t).None?
  {
  }

  class UserService {
    var store: map<Uuid, UserEntity>
    var cache: Cache.Store<Cached>
    var audit: seq<Audit.AuditEvent>

    /** Stored users carry their own key as id, e-mails are unique, and each cache holds its kind. */
    ghost predicate Valid()
      reads this
    {
      && (forall id :: id in store ==> store[id].id == Some(id))
      && EmailsUnique(store)
      && (forall p :: p in cache && p.0 == CacheConfig.UserCache ==> cache[p].value.CachedUser?)
      && (forall p :: p in cache && p.0 == CacheConfig.UserEmailCache ==> cache[p].value.CachedAuth?)
    }

    constructor ()
      ensures Valid() && store == map[] && cache == map[] && audit == []
    {
      store, cache, audit := map[], map[], [];
    }

    /** `validarEmailDisponible(email)`: fails with EmailYaRegistradoException when the e-mail is stored. */
    function ValidarEmailDisponible(email: string): (r: Result<()>)
      reads this
      requires Valid()
      ensures r.Err? <==> EmailTaken(store, email)
      ensures r.Err? ==> r.error == EmailYaRegistrado(EmailTakenMessage(email))
    {
      if FindByEmail(store, email).Some? then Err(EmailYaRegistrado(EmailTakenMessage(email))) else Ok(())
    }

    /** `crearUsuario(dto)`: rejects a stored e-mail; otherwise saves one USER with the encoder's hash
        under the generated id, returns its DTO, and publishes CREAR_USUARIO. */
    method CrearUsuario(dto: CreateUserDto, encoder: string -> string, newId: Uuid, ctx: Audit.Context)
      returns (r: Result<UserDto>)
      requires Valid()
      requires newId !in store   // the store generates an unused id
      modifies this
      ensures Valid()
      ensures cache == old(cache)
      ensures r.Err? <==> EmailTaken(old(store), dto.email)
      ensures r.Err? ==> r.error == EmailYaRegistrado(EmailTakenMessage(dto.email))
      ensures r.Err? ==> store == old(store) && audit == old(audit)
      ensures r.Ok? ==>
                && store == old(store)[newId := ToEntity(dto, encoder(dto.password), ctx.now).(id := Some(newId))]
                && r.value == ToDto(store[newId])
                && audit == Audit.Publish(old(audit),
                     Audit.UsersAdvice(Some(Audit.Request(ctx.authorization)), CrearUsuarioAnnotation, ctx, Audit.CreateUserArg(dto)))
    {
      var available := ValidarEmailDisponible(dto.email);
      if available.Err? {
        return Err(available.error);
      }
      var entity := ToEntity(dto, encoder(dto.password), ctx.now);
      entity := entity.(id := Some(newId));
      InsertKeepsEmailsUnique(store, newId, entity);
      store := store[newId := entity];
      r := Ok(ToDto(entity));
      audit := Audit.Publish(audit,
        Audit.UsersAdvice(Some(Audit.Request(ctx.authorization)), CrearUsuarioAnnotation, ctx, Audit.CreateUserArg(dto)));
    }

    /** `actualizarUsuario(id, dto)`: not-found for an unknown id; conflict when the e-mail changes
        to one already stored; otherwise rewrites the user, evicts `usuario[id]` and all of
        `usuario_email`, and publishes ACTUALIZAR_USUARIO. A failed call changes nothing. */
    method ActualizarUsuario(id: Uuid, dto: UpdateUserDto, ctx: Audit.Context) returns (r: Result<UserDto>)
      requires Valid()
      modifies this
      ensures Valid()
      ensures id !in old(store) ==> r == Err(UsuarioNoEncontrado(UserIdNotFoundMessage(id)))
      ensures id in old(store) && old(store)[id].email != dto.email && EmailTaken(old(store), dto.email) ==>
                r == Err(EmailYaRegistrado(EmailTakenMessage(dto.email)))
      ensures r.Ok? <==> id in old(store) && (old(store)[id].email == dto.email || !EmailTaken(old(store), dto.email))
      ensures r.Err? ==> store == old(store) && cache == old(cache) && audit == old(audit)
      ensures r.Ok? ==>
                && store == old(store)[id := ActualizarEntidad(old(store)[id], dto, ctx.now)]
                && r.value == ToDto(store[id])
                && cache == Cache.EvictAll(Cache.Evict(old(cache), CacheConfig.UserCache, id), CacheConfig.UserEmailCache)
                && audit == Audit.Publish(old(audit),
                     Audit.UsersAdvice(Some(Audit.Request(ctx.authorization)), ActualizarUsuarioAnnotation, ctx, Audit.IdArg(id)))
    {
      if id !in store {
        return Err(UsuarioNoEncontrado(UserIdNotFoundMessage(id)));
      }
      var usuario := store[id];
      if usuario.email != dto.email {
        var available := ValidarEmailDisponible(dto.email);
        if available.Err? {
          return Err(available.error);
        }
      }
      usuario := ActualizarEntidad(usuario, dto, ctx.now);
      UpdateKeepsEmailsUnique(store, id, usuario);
      store := store[id := usuario];
      r := Ok(ToDto(usuario));
      cache := Cache.EvictAll(Cache.Evict(cache, CacheConfig.UserCache, id), CacheConfig.UserEmailCache);
      audit := Audit.Publish(audit,
        Audit.UsersAdvice(Some(Audit.Request(ctx.authorization)), ActualizarUsuarioAnnotation, ctx, Audit.IdArg(id)));
    }

    /** `buscarPorEmail(email)`, cached in `usuario_email` under the e-mail: a live entry is
        returned as is; otherwise the stored user's id, e-mail, hash and role are returned and
        cached, or not-found naming the e-mail is thrown and nothing is cached. */
    method BuscarPorEmail(email: string, now: nat) returns (r: Result<AuthUserDto>)
      requires Valid()
      modifies this`cache
      ensures Valid()
      ensures var hit := Cache.Lookup(old(cache), CacheConfig.UserEmailCache, email, now);
              && (hit.Some? ==> r == Ok(hit.value.auth) && cache == old(cache))
              && (hit.None? && EmailTaken(store, email) ==>
                    && r == Ok(ToAuthDto(FindByEmail(store, email).value))
                    && cache == Cache.Put(old(cache), CacheConfig.UserEmailCache, email, CachedAuth(r.value),
                                          now, CacheConfig.Seconds(CacheConfig.UserTtlMinutes(CacheConfig.UserEmailCache))))
              && (hit.None? && !EmailTaken(store, email) ==>
                    r == Err(UsuarioNoEncontrado(UserEmailNotFoundMessage(email))) && cache == old(cache))
    {
      var hit := Cache.Lookup(cache, CacheConfig.UserEmailCache, email, now);
      if hit.Some? {
        return Ok(hit.value.auth);
      }
      var found := FindByEmail(store, email);
      if found.None? {
        return Err(UsuarioNoEncontrado(UserEmailNotFoundMessage(email)));
      }
      var auth := ToAuthDto(found.value);
      cache := Cache.Put(cache, CacheConfig.UserEmailCache, email, CachedAuth(auth),
                         now, CacheConfig.Seconds(CacheConfig.UserTtlMinutes(CacheConfig.UserEmailCache)));
      r := Ok(auth);
    }

    /** `obtenerTodos()`: every stored user as a DTO (paging left out). */
    method ObtenerTodos() returns (page: map<Uuid, UserDto>)
      ensures page.Keys == store.Keys
      ensures forall id :: id in page ==> page[id] == ToDto(store[id])
    {
      page := map id | id in store :: ToDto(store[id]);
    }

    /** `obtenerPorId(id)`, cached in `usuario` under the id: a live entry is returned as is;
        otherwise the stored user's DTO is returned and cached, or not-found naming the id is
        thrown and nothing is cached. */
    method ObtenerPorId(id: Uuid, now: nat) returns (r: Result<UserDto>)
      requires Valid()
      modifies this`cache
      ensures Valid()
      ensures var hit := Cache.Lookup(old(cache), CacheConfig.UserCache, id, now);
              && (hit.Some? ==> r == Ok(hit.value.user) && cache == old(cache))
              && (hit.None? && id in store ==>
                    && r == Ok(ToDto(store[id]))
                    && cache == Cache.Put(old(cache), CacheConfig.UserCache, id, CachedUser(r.value),
                                          now, CacheConfig.Seconds(CacheConfig.UserTtlMinutes(CacheConfig.UserCache))))
              && (hit.None? && id !in store ==>
                    r == Err(UsuarioNoEncontrado(UserIdNotFoundMessage(id))) && cache == old(cache))
    {
      var hit := Cache.Lookup(cache, CacheConfig.UserCache, id, now);
      if hit.Some? {
        return Ok(hit.value.user);
      }
      if id !in store {
        return Err(UsuarioNoEncontrado(UserIdNotFoundMessage(id)));
      }
      var dto := ToDto(store[id]);
      cache := Cache.Put(cache, CacheConfig.UserCache, id, CachedUser(dto),
                         now, CacheConfig.Seconds(CacheConfig.UserTtlMinutes(CacheConfig.UserCache)));
      r := Ok(dto);
    }
  }
  /** A second registration with the same e-mail is refused and leaves the first user alone. */
  method DuplicateEmailRejected(first: CreateUserDto, second: CreateUserDto, encoder: string -> string,
                                id1: Uuid, id2: Uuid, ctx: Audit.Context)
    returns (created: Result<UserDto>, refused: Result<UserDto>)
    requires first.email == second.email && id1 != id2
    ensures created.Ok? && created.value.email == first.email && created.value.rol == RoleUser
    ensures refused == Err(EmailYaRegistrado(EmailTakenMessage(second.email)))
  {
    var service := new UserService();
    created := service.CrearUsuario(first, encoder, id1, ctx);
    assert service.store[id1].email == second.email;
    refused := service.CrearUsuario(second, encoder, id2, ctx);
  }

  /** Create, read by id (which caches), update, read again: the second read sees the update,
      because the update evicts `usuario[id]`. */
  method ReadAfterUpdateIsFresh(dto: CreateUserDto, encoder: string -> string, id: Uuid,
                                change: UpdateUserDto, ctx: Audit.Context)
    returns (first: Result<UserDto>, second: Result<UserDto>)
    ensures first.Ok? && first.value.nombres == dto.nombres
    ensures second == Ok(UserDto(Some(id), change.nombres, change.apellidos, change.email, RoleUser))
  {
    var service := new UserService();
    var created := service.CrearUsuario(dto, encoder, id, ctx);
    first := service.ObtenerPorId(id, ctx.now);
    var updated := service.ActualizarUsuario(id, change, ctx);
    second := service.ObtenerPorId(id, ctx.now);
  }
}

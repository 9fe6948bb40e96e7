# ticket-system services, modelled in Dafny

This project models the service core of the ticket system, in two Spring Boot services:

- **ms-users** creates, updates and looks up users. Its users carry a unique e-mail, a password
  hash and a role. It keeps two Redis caches: `usuario` by id and `usuario_email` by e-mail.
- **ms-tickets** creates, updates, deletes, reads and filters tickets. It keeps a `ticket`
  cache by id and a `ticket_status` cache for filter results.

Each audited service method, once it returns normally, triggers an AuditAspect advice. The
advice resolves the caller from the JWT in the Authorization header (`JwtUtils.extractEmail`),
serialises the method's first argument and publishes one audit event. The users advice
replaces any `password` field with `"OCULTO"`; the tickets advice does not. A
GlobalExceptionHandler turns exceptions into HTTP status codes and JSON bodies.

The files:

| file | module | what it holds |
|---|---|---|
| `errors.dfy` | `Errors` | `Option`, the exceptions the services throw (`Thrown`), `Result`, and their messages |
| `json.dfy` | `Json` | Jackson trees, and `ObjectNode.get` / `put` on an ordered field list |
| `jwt.dfy` | `Jwt` | `extractEmail`, with Java's single-pass `String.replace` |
| `cache.dfy` | `Cache` | a namespaced cache whose entries expire at put time plus TTL |
| `cache_config.dfy` | `CacheConfig` | the two RedisCacheConfig TTL tables |
| `users.dfy` | `Users` | the user entity, its DTOs, and UserMapper |
| `tickets.dfy` | `Tickets` | the ticket entity, its DTOs, the two status enums, and TicketMapper |
| `audit.dfy` | `Audit` | both `enviarEventoAuditoria` advices, and appending to the audit queue |
| `user_service.dfy` | `UserServices` | class `UserService` (UserServiceImpl), with a store, cache and audit fields |
| `ticket_service.dfy` | `TicketServices` | class `TicketService` (TicketServiceImpl), with the same three fields |
| `exception_handler.dfy` | `ExceptionHandling` | handler resolution and every handler's response |

Some things the source gets from its surroundings are parameters of the model instead:

- `LocalDateTime.now()` is `now`, in seconds. The same clock times cache expiry.
- The password encoder is `encoder`.
- JWT signature checking is `verify`.
- Jackson serialisation of an argument is `Context.serialize`; `None` means it threw.
- Whether the RabbitMQ publisher accepted the event is `Context.delivered`.
- The id the database generates on save is `newId`, required to be unused.

`String.replace` in `extractEmail` removes every occurrence of "Bearer " in the header as it
arrived. Its output can still contain one (Jwt.SinglePassMayLeavePrefix).

A service method's exception is the `Err` of its `Result`. A method that fails leaves every
field as it was, as the transaction rollback, the after-return evictions and the after-return
advice all do.

## Model

| member | source | states |
|---|---|---|
| Errors.EmailTakenMessage | ms-tickets/src/main/java/com/tickets/users/exception/EmailYaRegistradoException.java:4-6 | the e-mail-conflict message contains the e-mail |
| Errors.WithSubject | ms-tickets/src/main/java/com/tickets/tickets/exception/TicketNotFoundException.java:4-6 | a message built from a fixed text and a value begins with the text and contains the value; the not-found, create-failure and invalid-status messages are all built this way |
| Errors.NotFoundMessagesNameSubject | ms-tickets/src/main/java/com/tickets/users/exception/UsuarioNoEncontradoException.java:3-10 | each not-found message contains what was looked for, and the id overload and the e-mail overload never give the same message |
| Json.Put | ms-users/src/main/java/com/tickets/users/aspect/AuditAspect.java:57 | after `put`, the name holds the new value and every other name reads as before |
| Json.PutNames | ms-users/src/main/java/com/tickets/users/aspect/AuditAspect.java:55-57 | `put` keeps a present name in its place and appends a new one at the end |
| Json.PutKeepsNamesUnique | ms-users/src/main/java/com/tickets/users/aspect/AuditAspect.java:57 | `put` into an object with distinct names leaves the names distinct |
| Jwt.ExtractEmail | ms-users/src/main/java/com/tickets/users/util/JwtUtils.java:14-27 | total: a token that fails verification gives "anonimo", one that verifies gives its subject claim |
| Jwt.ReplaceAbsent | ms-users/src/main/java/com/tickets/users/util/JwtUtils.java:16 | a header without "Bearer " reaches the verifier unchanged |
| Jwt.ReplaceFirstOccurrence | ms-users/src/main/java/com/tickets/users/util/JwtUtils.java:16 | `replace` drops the first occurrence and continues after it |
| Jwt.SinglePassMayLeavePrefix | ms-users/src/main/java/com/tickets/users/util/JwtUtils.java:16 | the pass does not rescan its output: "BeBearer arer " becomes "Bearer " |
| Jwt.BearerHeaderYieldsToken | ms-users/src/main/java/com/tickets/users/util/JwtUtils.java:16-20 | "Bearer " followed by a token gives the verifier exactly the token |
| Cache.Lookup | ms-tickets/src/main/java/com/tickets/tickets/config/RedisCacheConfig.java:28-42 | a get hits exactly when the entry exists and has not expired, and returns the stored value |
| Cache.Put | ms-tickets/src/main/java/com/tickets/tickets/config/RedisCacheConfig.java:28-42 | a put adds or overwrites one key and leaves every other entry as it was |
| Cache.Evict | ms-tickets/src/main/java/com/tickets/tickets/service/impl/TicketServiceImpl.java:57-59 | evicting by key removes exactly that entry |
| Cache.EvictAll | ms-users/src/main/java/com/tickets/users/service/impl/UserServiceImpl.java:52 | `allEntries = true` removes every entry of the namespace and no other |
| Cache.ServedUntilExpiry | ms-tickets/src/main/java/com/tickets/tickets/config/RedisCacheConfig.java:28-42 | a value put at t is served at u exactly while u < t + TTL |
| Cache.EvictIdempotent | ms-tickets/src/main/java/com/tickets/tickets/service/impl/TicketServiceImpl.java:58 | evicting twice is evicting once; evicting an absent key changes nothing |
| Cache.EvictAllIdempotent | ms-users/src/main/java/com/tickets/users/service/impl/UserServiceImpl.java:52 | clearing a namespace twice is clearing it once; clearing an empty namespace changes nothing |
| CacheConfig.TicketTtlTable | ms-tickets/src/main/java/com/tickets/tickets/config/RedisCacheConfig.java:26-47 | `ticket` 30 minutes, `ticket_status` and `ticket_usuarioid` 5, any other name 10 |
| CacheConfig.UserTtlTable | ms-tickets/src/main/java/com/tickets/users/config/RedisCacheConfig.java:27-45 | `usuario` 30 minutes, `usuario_email` 5, any other name 10 |
| CacheConfig.TicketEntryLifetime | ms-tickets/src/main/java/com/tickets/tickets/config/RedisCacheConfig.java:26-47 | an entry put at t in a tickets cache is served exactly until t plus its name's TTL; there is no per-entry TTL |
| CacheConfig.UserEntryLifetime | ms-tickets/src/main/java/com/tickets/users/config/RedisCacheConfig.java:27-45 | the same for the users caches |
| Users.ToEntity | ms-users/src/main/java/com/tickets/users/mapper/UserMapper.java:15-25 | a new user has no id, role USER, the request's names and e-mail, the given hash, and both dates set to now |
| Users.ToEntityAdmin | ms-users/src/main/java/com/tickets/users/mapper/UserMapper.java:27-37 | the same record as `toEntity` except that the role is ADMIN |
| Users.ToDto | ms-users/src/main/java/com/tickets/users/mapper/UserMapper.java:39-47 | the DTO copies id, names, e-mail and role |
| Users.ToDtoHidesHash | ms-users/src/main/java/com/tickets/users/mapper/UserMapper.java:39-47 | users that differ only in their hash have the same DTO |
| Users.ActualizarEntidad | ms-users/src/main/java/com/tickets/users/mapper/UserMapper.java:49-54 | only names, e-mail and update time change; id, hash, role and creation time stay |
| Users.UpdatedDtoReflectsRequest | ms-users/src/main/java/com/tickets/users/mapper/UserMapper.java:39-54 | the DTO of an updated user shows the update's names and e-mail, with the same id and role |
| Users.ToAuthDto | ms-users/src/main/java/com/tickets/users/service/impl/UserServiceImpl.java:72-77 | the auth DTO carries the user's id, e-mail, hash and role |
| Tickets.StatusValueOf | ms-tickets/src/main/java/com/tickets/tickets/entity/TicketEntity.java:33 | `valueOf` returns the constant with exactly that name, and fails when there is none |
| Tickets.DtoStatusValueOf | ms-tickets/src/main/java/com/tickets/tickets/mapper/TicketMapper.java:32 | the same for the DTO enum |
| Tickets.SameConstantNames | ms-tickets/src/main/java/com/tickets/tickets/mapper/TicketMapper.java:32-38 | every name of one enum is a constant of the other |
| Tickets.ToDtoStatus | ms-tickets/src/main/java/com/tickets/tickets/mapper/TicketMapper.java:32 | entity to DTO status by name is total and keeps the name |
| Tickets.ToEntityStatus | ms-tickets/src/main/java/com/tickets/tickets/mapper/TicketMapper.java:38 | DTO to entity status by name is total and keeps the name |
| Tickets.StatusConversionRoundTrips | ms-tickets/src/main/java/com/tickets/tickets/mapper/TicketMapper.java:32-38 | converting by name in either direction and back is the identity |
| Tickets.ToEntity | ms-tickets/src/main/java/com/tickets/tickets/mapper/TicketMapper.java:15-23 | a new ticket is ABIERTO, has no id, the request's description and user, and both dates set to now |
| Tickets.ToDto | ms-tickets/src/main/java/com/tickets/tickets/mapper/TicketMapper.java:25-34 | the DTO copies id, description, user and dates, and a status with the same name |
| Tickets.ActualizarEntidad | ms-tickets/src/main/java/com/tickets/tickets/mapper/TicketMapper.java:36-40 | fails with a NullPointerException exactly when the status is null; otherwise only description, status and update time change |
| Tickets.UpdatedDtoReflectsRequest | ms-tickets/src/main/java/com/tickets/tickets/mapper/TicketMapper.java:25-40 | the DTO of an updated ticket shows the requested description and status |
| Tickets.ToUpperCase | ms-tickets/src/main/java/com/tickets/tickets/service/impl/TicketServiceImpl.java:97 | upper-casing keeps the length and maps each character |
| Tickets.ParseStatusIgnoresCase | ms-tickets/src/main/java/com/tickets/tickets/service/impl/TicketServiceImpl.java:97-101 | a status filter is accepted as a constant exactly when it spells that constant's name in any mix of cases |
| Audit.MissingAndRejectedTokensDiffer | ms-users/src/main/java/com/tickets/users/aspect/AuditAspect.java:37-40 | no header records "No_Auntenticado", a rejected token records "anonimo", and the two differ |
| Audit.AuditNode | ms-users/src/main/java/com/tickets/users/aspect/AuditAspect.java:47-59 | an object keeps every field but `password`, which becomes "OCULTO"; any other value becomes {"valor": its text, "password": "OCULTO"} |
| Audit.AuditNodeHidesPassword | ms-users/src/main/java/com/tickets/users/aspect/AuditAspect.java:50-57 | the audit node's only `password` field holds "OCULTO" |
| Audit.UsersAdvice | ms-users/src/main/java/com/tickets/users/aspect/AuditAspect.java:32-72 | throws only when no request is bound, before the guarded block; publishes exactly when serialisation and delivery succeed. The event has the clock, the annotation's service and action, the actor, and the serialised argument with its `password` field replaced by "OCULTO" |
| Audit.TicketsAdvice | ms-tickets/src/main/java/com/tickets/tickets/aspect/AuditAspect.java:30-59 | the same, with the serialised argument as the data, unredacted |
| Audit.TicketsAdviceKeepsPassword | ms-tickets/src/main/java/com/tickets/tickets/aspect/AuditAspect.java:45 | a password in a tickets argument reaches the audit queue unchanged |
| Audit.Publish | ms-users/src/main/java/com/tickets/users/aspect/AuditAspect.java:68 | one advice run appends at most one event, the published one, and keeps the earlier log |
| UserServices.FindByEmail | ms-users/src/main/java/com/tickets/users/service/impl/UserServiceImpl.java:96-100 | finds a stored user with the e-mail exactly when one exists |
| UserServices.InsertKeepsEmailsUnique | ms-users/src/main/java/com/tickets/users/service/impl/UserServiceImpl.java:42-45 | saving a user whose e-mail is free keeps e-mails unique |
| UserServices.UpdateKeepsEmailsUnique | ms-users/src/main/java/com/tickets/users/service/impl/UserServiceImpl.java:57-63 | rewriting a user with its own or a free e-mail keeps e-mails unique |
| UserServices.UpdateEvictions | ms-users/src/main/java/com/tickets/users/service/impl/UserServiceImpl.java:50-53 | the update evicts `usuario[id]` and all of `usuario_email`, keeps every other entry, and a later read of the user misses |
| UserServices.UserService.ValidarEmailDisponible | ms-users/src/main/java/com/tickets/users/service/impl/UserServiceImpl.java:96-100 | fails with the conflict naming the e-mail exactly when the e-mail is stored |
| UserServices.UserService.CrearUsuario | ms-users/src/main/java/com/tickets/users/service/impl/UserServiceImpl.java:40-47 | a stored e-mail fails with the conflict and changes nothing. Otherwise it saves exactly one USER with the encoder's hash, returns its DTO and publishes CREAR_USUARIO; e-mails stay unique |
| UserServices.UserService.ActualizarUsuario | ms-users/src/main/java/com/tickets/users/service/impl/UserServiceImpl.java:49-65 | an unknown id is not-found naming the id. The e-mail is checked only when it changes. Success rewrites the user, evicts as stated and publishes ACTUALIZAR_USUARIO; failure changes nothing |
| UserServices.UserService.BuscarPorEmail | ms-users/src/main/java/com/tickets/users/service/impl/UserServiceImpl.java:67-79 | a live `usuario_email` entry is returned. A miss returns and caches the user's auth DTO for 5 minutes, or fails with not-found naming the e-mail and caches nothing |
| UserServices.UserService.ObtenerTodos | ms-users/src/main/java/com/tickets/users/service/impl/UserServiceImpl.java:81-85 | one DTO per stored user, and no other |
| UserServices.UserService.ObtenerPorId | ms-users/src/main/java/com/tickets/users/service/impl/UserServiceImpl.java:87-94 | a live `usuario` entry is returned as is. A miss returns and caches the DTO for 30 minutes, or fails with not-found naming the id and caches nothing |
| UserServices.DuplicateEmailRejected | ms-users/src/main/java/com/tickets/users/service/impl/UserServiceImpl.java:42-43 | a second registration with the same e-mail is refused with the conflict |
| UserServices.ReadAfterUpdateIsFresh | ms-users/src/main/java/com/tickets/users/service/impl/UserServiceImpl.java:50-53 | a read after an update returns the updated user, although the earlier read cached it, whether or not the update changes the e-mail |
| TicketServices.FilterDispatch | ms-tickets/src/main/java/com/tickets/tickets/service/impl/TicketServiceImpl.java:94-110 | fails with "Estatus inválido" exactly when a status is given and names no constant once upper-cased |
| TicketServices.FilterReturnsExactlyMatching | ms-tickets/src/main/java/com/tickets/tickets/service/impl/TicketServiceImpl.java:95-108 | whichever of the four branches runs, the result is exactly the DTOs of the tickets matching the given status and user |
| TicketServices.TicketService.CrearTicket | ms-tickets/src/main/java/com/tickets/tickets/service/impl/TicketServiceImpl.java:44-54 | saves exactly one open ticket, returns its DTO and publishes CREAR_TICKET. A save failure becomes a RuntimeException carrying its message, not not-found, and changes nothing |
| TicketServices.TicketService.ActualizarTicket | ms-tickets/src/main/java/com/tickets/tickets/service/impl/TicketServiceImpl.java:56-66 | an unknown id is TicketNotFound, a null status a NullPointerException, and either changes nothing. Success rewrites the ticket, evicts only `ticket[id]` and publishes ACTUALIZAR_TICKET |
| TicketServices.TicketService.EliminarTicket | ms-tickets/src/main/java/com/tickets/tickets/service/impl/TicketServiceImpl.java:68-73 | an unknown id is TicketNotFound and deletes nothing. Success removes exactly that id, publishes ELIMINAR_TICKET, and leaves the cache as it was |
| TicketServices.TicketService.EliminarTicketEvicting | ms-tickets/src/main/java/com/tickets/tickets/service/impl/TicketServiceImpl.java:68-73 | the same delete, also evicting `ticket[id]` as `actualizarTicket` does |
| TicketServices.TicketService.ObtenerTicketPorId | ms-tickets/src/main/java/com/tickets/tickets/service/impl/TicketServiceImpl.java:75-81 | a live `ticket` entry is returned. A miss returns and caches the DTO for 30 minutes, or fails with TicketNotFound and caches nothing |
| TicketServices.TicketService.FiltrarTicketsAsWritten | ms-tickets/src/main/java/com/tickets/tickets/service/impl/TicketServiceImpl.java:89-93 | as annotated: a live `ticket_status[status]` entry is returned; with no status, or on a miss, the call fails with Spring's null-key IllegalArgumentException and caches nothing |
| TicketServices.FilterFailsAsWritten | ms-tickets/src/main/java/com/tickets/tickets/service/impl/TicketServiceImpl.java:89-93 | as annotated: after a ticket is created, every filter call fails, whatever its arguments, and the handler answers 400 with the null-key message |
| TicketServices.FilterByOwnerAnswers | ms-tickets/src/main/java/com/tickets/tickets/service/impl/TicketServiceImpl.java:88-114 | with the broken key left out: filtering by the owner of the only ticket returns exactly that ticket |
| TicketServices.TicketService.FiltrarTickets | ms-tickets/src/main/java/com/tickets/tickets/service/impl/TicketServiceImpl.java:88-114 | with the broken `ticket_usuarioid` key left out. With a status, a live `ticket_status[status]` entry is returned whatever the user filter. A miss runs the dispatch and caches a success for 5 minutes. With no status there is no caching |
| TicketServices.ReadAfterUpdateIsFresh | ms-tickets/src/main/java/com/tickets/tickets/service/impl/TicketServiceImpl.java:56-81 | after create, read, update, a second read returns the new description and status |
| TicketServices.ReadAfterDeleteIsStale | ms-tickets/src/main/java/com/tickets/tickets/service/impl/TicketServiceImpl.java:68-81 | a ticket read before a successful delete is still returned by id afterwards |
| TicketServices.ReadAfterEvictingDeleteFails | ms-tickets/src/main/java/com/tickets/tickets/service/impl/TicketServiceImpl.java:68-81 | with the eviction, the same read ends in TicketNotFound |
| TicketServices.FilterCacheIgnoresUser | ms-tickets/src/main/java/com/tickets/tickets/service/impl/TicketServiceImpl.java:89-93 | with the broken `ticket_usuarioid` key left out: after one user's open tickets are filtered, the same status filter for another user returns the first user's result |
| ExceptionHandling.HandlerFor | ms-tickets/src/main/java/com/tickets/users/exception/GlobalExceptionHandler.java:21-77 | the handler declared for a class is the one whose `@ExceptionHandler` names that class |
| ExceptionHandling.Resolve | ms-tickets/src/main/java/com/tickets/users/exception/GlobalExceptionHandler.java:21-77 | the chosen handler belongs to a class in the exception's chain, and no nearer class has a handler |
| ExceptionHandling.ResolveFirstHandled | ms-tickets/src/main/java/com/tickets/users/exception/GlobalExceptionHandler.java:21-77 | the first handled class in the chain determines the handler |
| ExceptionHandling.ResolvesToNearest | ms-tickets/src/main/java/com/tickets/users/exception/GlobalExceptionHandler.java:48-53 | every exception resolves to a handler, since every chain reaches `Exception` |
| ExceptionHandling.ErrorsToMapKeys | ms-tickets/src/main/java/com/tickets/users/exception/GlobalExceptionHandler.java:29-32 | the validation body has one key per field with an error, and no other |
| ExceptionHandling.LastErrorWins | ms-tickets/src/main/java/com/tickets/users/exception/GlobalExceptionHandler.java:30-32 | each field maps to the message of its last error |
| ExceptionHandling.HandleValidacion | ms-tickets/src/main/java/com/tickets/users/exception/GlobalExceptionHandler.java:27-34 | the loop builds exactly that field-to-message map, with status 400 |
| ExceptionHandling.Respond | ms-tickets/src/main/java/com/tickets/users/exception/GlobalExceptionHandler.java:19-78 | user not found 404; business, constraint, illegal-argument and validation errors 400; type mismatch 400 with the UUID or the other fixed text; no resource 404; anything else 500 with a fixed text that never shows the exception's message |
| ExceptionHandling.NearestHandlerWins | ms-tickets/src/main/java/com/tickets/users/exception/GlobalExceptionHandler.java:21-25 | a user-not-found is also a BusinessException and an Exception, yet it gets its own handler's 404 |
| ExceptionHandling.TicketNotFoundIsInternalError | ms-tickets/src/main/java/com/tickets/tickets/exception/TicketNotFoundException.java:3 | TicketNotFoundException extends the tickets BusinessException, which no handler names, so it answers 500 with the generic text |
| ExceptionHandling.UserErrorsNameTheirSubject | ms-tickets/src/main/java/com/tickets/users/exception/GlobalExceptionHandler.java:21-25 | a user not found by id answers 404 naming the id; an e-mail conflict answers 400 naming the e-mail |

## Findings

| source | as written | input that shows it | evidently intended | confidence | as-written member | corrected member |
|---|---|---|---|---|---|---|
| ms-tickets/src/main/java/com/tickets/tickets/service/impl/TicketServiceImpl.java:68-73 | `eliminarTicket` deletes the row but evicts no cache entry. `actualizarTicket` evicts `ticket[id]`, and `obtenerTicketPorId` caches under the same key | create ticket X, read it by id, delete X, read it by id again within 30 minutes: the deleted ticket is returned | the delete also evicts `ticket[id]`, so the last read fails with TicketNotFound | not executed | TicketServices.ReadAfterDeleteIsStale | TicketServices.ReadAfterEvictingDeleteFails |
| ms-tickets/src/main/java/com/tickets/tickets/service/impl/TicketServiceImpl.java:89-93 | the second `@Cacheable` of `filtrarTickets` has key `#usuarioid`, which names no parameter (the parameter is `usuarioId`), so the key is always null. Spring's interceptor computes the keys before the body and throws IllegalArgumentException for a null key. `#status` is null too when no status is given | create a ticket, then call the filter with any arguments: a call with no status fails on the first key, and a call with a status misses `ticket_status` and fails on the second | no filter call fails on a null key: a call with no status, or with a status that misses `ticket_status`, returns exactly the tickets that match every given filter (TicketServices.FilterReturnsExactlyMatching); `ticket_status` stays keyed by the status text alone, as annotated (TicketServices.FilterCacheIgnoresUser) | not executed | TicketServices.FilterFailsAsWritten | TicketServices.FilterByOwnerAnswers |

## Left out

- HTTP routing, the NestJS gateway, the RabbitMQ transport and the Redis connection and serialisation setup are not modelled. Publishing is appending to the `audit` sequence, and `Context.delivered` stands for the publisher's own dropped failures.
- Pagination and sorting are left out. `obtenerTodos` and the filter return one map from id to DTO, without order or page bounds.
- `printAllCacheEntries` is debug output and is left out.
- Fail-open cache behaviour is left out. The configured error handler is a library class whose behaviour is not part of this model.
- The other exceptions in the `filtrarTickets` catch are left out. Repository failures while filtering ("Error al filtrar los tickets") are not modelled; only the invalid-status path is.
- TicketServices.TicketService.FiltrarTickets: this is the corrected filter. It treats the annotation as if the `ticket_usuarioid` operation did not exist, and a call with no status as uncached. The endpoint as written fails on every call that misses `ticket_status`, including every call with no status (TicketServices.TicketService.FiltrarTicketsAsWritten, and "## Findings").
- TicketServices.FilterFailsAsWritten: the 400 answer assumes the GlobalExceptionHandler under `com.tickets.users.exception` in ms-tickets applies to the tickets controllers. The application class that sets the component scan is not part of this model.
- The services are modelled as always called inside an HTTP request: every service method passes a bound request to its advice. In the source, a call with no bound request does its work and then the advice throws a NullPointerException. That path exists only in Audit.UsersAdvice and Audit.TicketsAdvice, and never reaches service state.
- ExceptionHandling.Respond: exception messages are taken to be non-null. `Map.of("error", ex.getMessage())` would throw inside the handler for a null message. Every message in the model is built from a fixed text.
- TicketServices.TicketService.FiltrarTicketsAsWritten: the IllegalArgumentException message is cut to its fixed beginning, "Null key returned for cache operation". Spring appends a description of the operation, which is not modelled.
- Users.ToEntity, Users.ToEntityAdmin and Tickets.ToEntity: both dates are set from one clock reading `now`. The source calls `LocalDateTime.now()` once for each date, so the two can differ by the time between the calls.
- ms-tickets has its own JwtUtils, which is not part of this model. The tickets advice reuses the ms-users `extractEmail` model.
- The ms-users exception classes are not part of this model. Their messages are taken from the copies under `ms-tickets/src/main/java/com/tickets/users/exception`.
- Audit.UsersAdvice: the event's data is modelled as the JSON tree, not its serialised text, and the timestamp is the clock reading, not its `toString`.
- Jwt.ExtractEmail: signature, expiry and parsing are the `verify` parameter. The jjwt library is not modelled.
- Tickets.ToUpperCase: covers the ASCII letters only. Locale-dependent and non-ASCII case mapping of `String.toUpperCase` is not modelled.
- Tickets.ToDto: `toDTO` passes `String.valueOf(date)` to the DTO's date fields. The model copies the instants instead of their text.
- Users.ActualizarEntidad and Tickets.ActualizarEntidad: both mappers update the managed entity in place through setters. The model returns the updated value, and the service stores it under the same id. JPA dirty checking and aliasing of the managed object are not modelled.
- UserServices.UserService.CrearUsuario and TicketServices.TicketService.CrearTicket: the id generated on save is the `newId` parameter, assumed unused.
- Concurrency is left out, including races between commit, eviction and cache population.
- DTO validation annotations are not modelled. Validation failures enter only as the `ArgumentNotValid` and `ConstraintViolation` exceptions the handler receives.
- The class chains of the library exceptions follow Spring 6 and Jakarta Validation. Both BusinessException classes are taken to extend RuntimeException; those two files are not part of this model.
- The message "Estatus inválido" in `filtrarTickets` holds U+221A U+00B0 in place of the accented letter. The model keeps those characters.

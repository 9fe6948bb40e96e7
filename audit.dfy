/** The two AuditAspect advices. After an annotated service method returns normally, the advice
    resolves the caller's identity, serialises the method's first argument and publishes one audit
    event; anything that fails inside its guarded block is logged and dropped. The users advice
    also hides the `password` field; the tickets advice sends the argument as it is. */
module Audit {
  import opened Errors
  import opened Json
  import Jwt
  import Users
  import Tickets

  /** AuditEventDTO. `data` is the JSON tree whose text the advice publishes. */
  datatype AuditEvent = AuditEvent(
    timestamp: nat,
    servicio: string,
    accion: string,
    usuario: Option<string>,
    data: Json)

  /** The `@AuditEvent(servicio, accion)` annotation on a service method. */
  datatype AuditLabel = AuditLabel(servicio: string, accion: string)

  /** The HTTP request bound to the current thread. */
  datatype Request = Request(authorization: Option<string>)

  /** First argument of an audited service method. */
  datatype AuditArg =
    | IdArg(id: string)
    | CreateUserArg(user: Users.CreateUserDto)
    | CreateTicketArg(ticket: Tickets.CreateTicketDto)

  /** What a call's surroundings supply: the clock, the request's Authorization header, the JWT
      verifier, Jackson's serialisation of an argument (None when it throws), and whether the
      publisher got the event onto the queue (its own failures are logged and dropped). */
  datatype Context = Context(
    now: nat,
    authorization: Option<string>,
    verify: string -> Jwt.Verification,
    serialize: AuditArg -> Option<Json>,
    delivered: bool)

  /** What one run of the advice does: publish one event, swallow a failure, or throw before its
      guarded block starts. */
  datatype Advice = Published(event: AuditEvent) | Swallowed | Threw(error: Thrown)

  const NotAuthenticated: string := "No_Auntenticado"
  const PasswordField: string := "password"
  const RedactionMark: string := "OCULTO"
  const ValueField: string := "valor"

  /** The actor: the JWT subject when an Authorization header is present, else "No_Auntenticado". */
  function ResolveActor(authorization: Option<string>, verify: string -> Jwt.Verification): Option<string> {
    match authorization
    case None => Some(NotAuthenticated)
    case Some(token) => Jwt.ExtractEmail(token, verify)
  }

  /** A missing header and a header whose token fails verification are recorded differently. */
  lemma MissingAndRejectedTokensDiffer(token: string, verify: string -> Jwt.Verification)
    requires verify(Jwt.ReplaceAll(token, Jwt.BearerPrefix, "")).Rejected?
    ensures ResolveActor(None, verify) == Some(NotAuthenticated)
    ensures ResolveActor(Some(token), verify) == Some(Jwt.Anonymous)
    ensures ResolveActor(None, verify) != ResolveActor(Some(token), verify)
  {
  }

  /** The users advice's audit node: the serialised argument if it is an object, otherwise an
      object holding its text under "valor"; in both cases "password" is set to "OCULTO". */
  function AuditNode(j: Json): (fields: seq<(string, Json)>)
    ensures Get(fields, PasswordField) == Some(JString(RedactionMark))
    ensures j.JObject? ==> forall name :: name != PasswordField ==> Get(fields, name) == Get(j.fields, name)
    ensures !j.JObject? ==> fields == [(ValueField, JString(AsText(j))), (PasswordField, JString(RedactionMark))]
  {
    var base := if j.JObject? then j.fields else Put([], ValueField, JString(AsText(j)));
    assert !j.JObject? ==> base == [(ValueField, JString(AsText(j)))];
    assert ValueField != PasswordField;
    assert !j.JObject? ==>
             base[1..] == [] &&
             Put(base, PasswordField, JString(RedactionMark)) == [base[0]] + Put([], PasswordField, JString(RedactionMark));
    Put(base, PasswordField, JString(RedactionMark))
  }

  /** The redacted node has one "password" field, holding "OCULTO", whatever the argument held:
      the original value survives under no top-level field named "password". */
  lemma AuditNodeHidesPassword(j: Json)
    requires j.JObject? ==> UniqueNames(j.fields)
    ensures UniqueNames(AuditNode(j))
    ensures forall i :: 0 <= i < |AuditNode(j)| && AuditNode(j)[i].0 == PasswordField ==>
              AuditNode(j)[i].1 == JString(RedactionMark)
  {
    var base := if j.JObject? then j.fields else Put([], ValueField, JString(AsText(j)));
    PutKeepsNamesUnique([], ValueField, JString(AsText(j)));
    PutKeepsNamesUnique(base, PasswordField, JString(RedactionMark));
    var fields := AuditNode(j);
    forall i | 0 <= i < |fields| && fields[i].0 == PasswordField ensures fields[i].1 == JString(RedactionMark) {
      FirstMatchIsOnly(fields, i, PasswordField);
    }
  }

  /** In an object with distinct names, `get` returns the value of the one field carrying the name. */
  lemma {:induction false} FirstMatchIsOnly(fields: seq<(string, Json)>, i: nat, name: string)
    requires UniqueNames(fields)
    requires i < |fields| && fields[i].0 == name
    ensures Get(fields, name) == Some(fields[i].1)
  {
    if i > 0 {
      assert fields[0].0 != fields[i].0;
      assert UniqueNames(fields[1..]) by {
        forall a, b | 0 <= a < b < |fields[1..]| ensures fields[1..][a].0 != fields[1..][b].0 {
          assert fields[1..][a] == fields[a + 1] && fields[1..][b] == fields[b + 1];
        }
      }
      FirstMatchIsOnly(fields[1..], i - 1, name);
    }
  }

  /** ms-users `enviarEventoAuditoria`. With no request bound, reading it throws before the guarded
      block; inside the block, a serialisation failure or an undelivered event is swallowed. */
  function UsersAdvice(request: Option<Request>, annotation: AuditLabel, ctx: Context, arg: AuditArg): (a: Advice)
    ensures a.Threw? <==> request.None?
    ensures a.Threw? ==> a.error == NullPointer
    ensures a.Published? <==> request.Some? && ctx.serialize(arg).Some? && ctx.delivered
    ensures a.Published? ==>
              && a.event.timestamp == ctx.now
              && a.event.servicio == annotation.servicio && a.event.accion == annotation.accion
              && a.event.usuario == ResolveActor(request.value.authorization, ctx.verify)
              && a.event.data == JObject(AuditNode(ctx.serialize(arg).value))
              && Get(a.event.data.fields, PasswordField) == Some(JString(RedactionMark))
  {
    match request
    case None => Threw(NullPointer)
    case Some(req) =>
      var actor := ResolveActor(req.authorization, ctx.verify);
      match ctx.serialize(arg)
      case None => Swallowed
      case Some(j) =>
        var event := AuditEvent(ctx.now, annotation.servicio, annotation.accion, actor, JObject(AuditNode(j)));
        if ctx.delivered then Published(event) else Swallowed
  }

  /** ms-tickets `enviarEventoAuditoria`: the same advice, but the data is the serialised argument
      as it is, with no redaction. */
  function TicketsAdvice(request: Option<Request>, annotation: AuditLabel, ctx: Context, arg: AuditArg): (a: Advice)
    ensures a.Threw? <==> request.None?
    ensures a.Threw? ==> a.error == NullPointer
    ensures a.Published? <==> request.Some? && ctx.serialize(arg).Some? && ctx.delivered
    ensures a.Published? ==>
              && a.event.timestamp == ctx.now
              && a.event.servicio == annotation.servicio && a.event.accion == annotation.accion
              && a.event.usuario == ResolveActor(request.value.authorization, ctx.verify)
              && Some(a.event.data) == ctx.serialize(arg)
  {
    match request
    case None => Threw(NullPointer)
    case Some(req) =>
      var actor := ResolveActor(req.authorization, ctx.verify);
      match ctx.serialize(arg)
      case None => Swallowed
      case Some(j) =>
        var event := AuditEvent(ctx.now, annotation.servicio, annotation.accion, actor, j);
        if ctx.delivered then Published(event) else Swallowed
  }

  /** A password the tickets advice is given reaches the audit queue unchanged. */
  lemma TicketsAdviceKeepsPassword(request: Request, annotation: AuditLabel, ctx: Context, arg: AuditArg, secret: Json)
    requires ctx.delivered
    requires ctx.serialize(arg).Some? && ctx.serialize(arg).value.JObject?
    requires Get(ctx.serialize(arg).value.fields, PasswordField) == Some(secret)
    ensures TicketsAdvice(Some(request), annotation, ctx, arg).Published?
    ensures Get(TicketsAdvice(Some(request), annotation, ctx, arg).event.data.fields, PasswordField) == Some(secret)
  {
  }

  /** The audit queue after one advice run: at most one event, appended at the end. */
  function Publish(log: seq<AuditEvent>, a: Advice): (r: seq<AuditEvent>)
    ensures |log| <= |r| <= |log| + 1 && r[..|log|] == log
    ensures |r| == |log| + 1 <==> a.Published?
    ensures a.Published? ==> r[|log|] == a.event
  {
    if a.Published? then log + [a.event] else log
  }
}

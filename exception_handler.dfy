/** GlobalExceptionHandler: Spring resolves a thrown exception to the `@ExceptionHandler` whose
    declared class is the nearest superclass of the exception's class, and that handler turns it
    into a status code and a JSON object of strings. */
module ExceptionHandling {
  import opened Errors

  const NotFound: nat := 404
  const BadRequest: nat := 400
  const InternalServerError: nat := 500

  const ErrorKey: string := "error"
  const GenericMessage: string := "Ha ocurrido un error inesperado"
  const UuidRequiredMessage: string := "1----El identificador proporcionado no es un UUID válido."
  const OtherTypeMessage: string := "2----El identificador proporcionado no es un UUID válido."
  const NoResourceMessage: string := "Recurso no encontrado o ruta inválida."
  const UuidType: string := "java.util.UUID"

  /** A handler's response: status code and body. */
  datatype Response = Response(status: nat, body: map<string, string>)

  /** `Map.of("error", message)`. */
  function ErrorBody(message: string): (body: map<string, string>)
    ensures body.Keys == {ErrorKey} && body[ErrorKey] == message
  {
    map[ErrorKey := message]
  }

  /** The exception classes involved, the two BusinessException classes kept apart. */
  datatype JavaClass =
    | UsuarioNoEncontradoException | EmailYaRegistradoException | UsersBusinessException
    | TicketNotFoundException | TicketsBusinessException
    | MethodArgumentNotValidException | BindException
    | ConstraintViolationException | ValidationException
    | IllegalArgumentException
    | MethodArgumentTypeMismatchException | TypeMismatchException | PropertyAccessException
    | BeansException | NestedRuntimeException
    | NoResourceFoundException | ServletException
    | NullPointerException | RuntimeException | OtherException | Exception | Throwable

  /** The eight handler methods, one per declared exception class. */
  datatype Handler =
    | OnUsuarioNoEncontrado | OnValidacion | OnConstraintViolation | OnIllegalArgument
    | OnGeneral | OnTypeMismatch | OnBusiness | OnNoResourceFound

  /** The class each handler declares in its `@ExceptionHandler`. */
  function HandledClass(h: Handler): JavaClass {
    match h
    case OnUsuarioNoEncontrado => UsuarioNoEncontradoException
    case OnValidacion => MethodArgumentNotValidException
    case OnConstraintViolation => ConstraintViolationException
    case OnIllegalArgument => IllegalArgumentException
    case OnGeneral => Exception
    case OnTypeMismatch => MethodArgumentTypeMismatchException
    case OnBusiness => UsersBusinessException
    case OnNoResourceFound => NoResourceFoundException
  }

  /** The handler declared for exactly this class, if any. */
  function HandlerFor(cls: JavaClass): (r: Option<Handler>)
    ensures r.Some? ==> HandledClass(r.value) == cls
    ensures r.None? ==> forall h: Handler :: HandledClass(h) != cls
  {
    match cls
    case UsuarioNoEncontradoException => Some(OnUsuarioNoEncontrado)
    case MethodArgumentNotValidException => Some(OnValidacion)
    case ConstraintViolationException => Some(OnConstraintViolation)
    case IllegalArgumentException => Some(OnIllegalArgument)
    case Exception => Some(OnGeneral)
    case MethodArgumentTypeMismatchException => Some(OnTypeMismatch)
    case UsersBusinessException => Some(OnBusiness)
    case NoResourceFoundException => Some(OnNoResourceFound)
    case _ => None
  }

  /** The class of a thrown exception followed by its superclasses, nearest first. The two
      BusinessException classes are distinct: TicketNotFoundException extends the tickets one. */
  function Ancestors(t: Thrown): (chain: seq<JavaClass>)
    ensures |chain| >= 2 && chain[|chain| - 2] == Exception && chain[|chain| - 1] == Throwable
  {
    match t
    case UsuarioNoEncontrado(_) =>
      [UsuarioNoEncontradoException, UsersBusinessException, RuntimeException, Exception, Throwable]
    case EmailYaRegistrado(_) =>
      [EmailYaRegistradoException, UsersBusinessException, RuntimeException, Exception, Throwable]
    case OtherBusiness(_) =>
      [UsersBusinessException, RuntimeException, Exception, Throwable]
    case TicketNotFound(_) =>
      [TicketNotFoundException, TicketsBusinessException, RuntimeException, Exception, Throwable]
    case ArgumentNotValid(_) =>
      [MethodArgumentNotValidException, BindException, Exception, Throwable]
    case ConstraintViolation(_) =>
      [ConstraintViolationException, ValidationException, RuntimeException, Exception, Throwable]
    case IllegalArgument(_) =>
      [IllegalArgumentException, RuntimeException, Exception, Throwable]
    case TypeMismatch(_) =>
      [MethodArgumentTypeMismatchException, TypeMismatchException, PropertyAccessException,
       BeansException, NestedRuntimeException, RuntimeException, Exception, Throwable]
    case NoResourceFound(_) =>
      [NoResourceFoundException, ServletException, Exception, Throwable]
    case Runtime(_) =>
      [RuntimeException, Exception, Throwable]
    case NullPointer =>
      [NullPointerException, RuntimeException, Exception, Throwable]
    case Unexpected(_) =>
      [OtherException, Exception, Throwable]
  }

  /** The handler of the nearest class in the chain that has one: it is declared for a class of
      the chain, and no nearer class has a handler. */
  function Resolve(chain: seq<JavaClass>): (r: Option<Handler>)
    ensures r.Some? <==> exists i :: 0 <= i < |chain| && HandlerFor(chain[i]).Some?
    ensures r.Some? ==> exists i :: 0 <= i < |chain| && HandlerFor(chain[i]) == r &&
                                    forall j :: 0 <= j < i ==> HandlerFor(chain[j]).None?
  {
    if chain == [] then None
    else if HandlerFor(chain[0]).Some? then
      HandlerFor(chain[0])
    else
      var rest := Resolve(chain[1..]);
      assert forall i :: 1 <= i < |chain| ==> chain[1..][i - 1] == chain[i];
      if rest.Some? then
        var i :| 0 <= i < |chain| - 1 && HandlerFor(chain[1..][i]) == rest &&
                 forall j :: 0 <= j < i ==> HandlerFor(chain[1..][j]).None?;
        assert HandlerFor(chain[i + 1]) == rest;
        rest
      else
        rest
  }

  /** The handler of the first handled class, read off the chain. */
  lemma {:induction false} ResolveFirstHandled(chain: seq<JavaClass>, i: nat)
    requires i < |chain| && HandlerFor(chain[i]).Some?
    requires forall j :: 0 <= j < i ==> HandlerFor(chain[j]).None?
    ensures Resolve(chain) == HandlerFor(chain[i])
  {
    if i > 0 {
      assert chain[1..][i - 1] == chain[i];
      ResolveFirstHandled(chain[1..], i - 1);
    }
  }

  /** `getMessage()` of the exceptions that carry a message of their own. */
  function MessageOf(t: Thrown): string {
    match t
    case UsuarioNoEncontrado(m) => m
    case EmailYaRegistrado(m) => m
    case OtherBusiness(m) => m
    case TicketNotFound(m) => m
    case ConstraintViolation(m) => m
    case IllegalArgument(m) => m
    case NoResourceFound(m) => m
    case Runtime(m) => m
    case Unexpected(m) => m
    case _ => ""
  }

  /** The field-to-message map `handleValidacion` builds: errors applied in order, so the last
      error of a field wins. */
  function ErrorsToMap(errors: seq<FieldError>): map<string, string> {
    if errors == [] then map[]
    else ErrorsToMap(errors[..|errors| - 1])[errors[|errors| - 1].field := errors[|errors| - 1].defaultMessage]
  }

  /** The map has one key per field that has an error, and no other. */
  lemma {:induction false} ErrorsToMapKeys(errors: seq<FieldError>)
    ensures ErrorsToMap(errors).Keys == set i | 0 <= i < |errors| :: errors[i].field
  {
    if errors != [] {
      var init := errors[..|errors| - 1];
      ErrorsToMapKeys(init);
      assert forall i :: 0 <= i < |init| ==> init[i] == errors[i];
      var keys := set i | 0 <= i < |errors| :: errors[i].field;
      forall f | f in keys ensures f in ErrorsToMap(errors) {
        var i :| 0 <= i < |errors| && errors[i].field == f;
        if i < |init| {
          assert init[i].field == f;
        }
      }
    }
  }

  /** Each field maps to the message of its last error: an earlier error of the same field is
      overwritten. */
  lemma {:induction false} LastErrorWins(errors: seq<FieldError>, i: nat)
    requires i < |errors|
    requires forall j :: i < j < |errors| ==> errors[j].field != errors[i].field
    ensures errors[i].field in ErrorsToMap(errors)
    ensures ErrorsToMap(errors)[errors[i].field] == errors[i].defaultMessage
  {
    if i < |errors| - 1 {
      var init := errors[..|errors| - 1];
      assert forall j :: 0 <= j < |init| ==> init[j] == errors[j];
      LastErrorWins(init, i);
    }
  }

  /** `handleValidacion`: 400 with the map built by looping over the field errors. */
  method HandleValidacion(fieldErrors: seq<FieldError>) returns (resp: Response)
    ensures resp == Response(BadRequest, ErrorsToMap(fieldErrors))
  {
    var errores: map<string, string> := map[];
    for i := 0 to |fieldErrors|
      invariant errores == ErrorsToMap(fieldErrors[..i])
    {
      assert fieldErrors[..i + 1][..i] == fieldErrors[..i];
      errores := errores[fieldErrors[i].field := fieldErrors[i].defaultMessage];
    }
    assert fieldErrors[..|fieldErrors|] == fieldErrors;
    resp := Response(BadRequest, errores);
  }

  /** What the selected handler method returns for the exception. */
  function Invoke(h: Handler, t: Thrown): Response {
    match h
    case OnUsuarioNoEncontrado => Response(NotFound, ErrorBody(MessageOf(t)))
    case OnValidacion => Response(BadRequest, if t.ArgumentNotValid? then ErrorsToMap(t.fieldErrors) else map[])
    case OnConstraintViolation => Response(BadRequest, ErrorBody(MessageOf(t)))
    case OnIllegalArgument => Response(BadRequest, ErrorBody(MessageOf(t)))
    case OnGeneral => Response(InternalServerError, ErrorBody(GenericMessage))
    case OnTypeMismatch =>
      var uuid := t.TypeMismatch? && t.requiredType == Some(UuidType);
      Response(BadRequest, ErrorBody(if uuid then UuidRequiredMessage else OtherTypeMessage))
    case OnBusiness => Response(BadRequest, ErrorBody(MessageOf(t)))
    case OnNoResourceFound => Response(NotFound, ErrorBody(NoResourceMessage))
  }

  /** Where in its chain an exception meets its handler: its own class, its parent (a plain
      users BusinessException subclass), or `Exception`. */
  function NearestHandled(t: Thrown): (i: nat)
    ensures var chain := Ancestors(t);
            && i < |chain| && HandlerFor(chain[i]).Some?
            && forall j :: 0 <= j < i ==> HandlerFor(chain[j]).None?
  {
    match t
    case EmailYaRegistrado(_) => 1
    case TicketNotFound(_) => 3
    case Runtime(_) => 1
    case NullPointer => 2
    case Unexpected(_) => 1
    case _ => 0
  }

  /** The handler each kind of exception reaches. */
  function NearestHandler(t: Thrown): Handler {
    match t
    case UsuarioNoEncontrado(_) => OnUsuarioNoEncontrado
    case EmailYaRegistrado(_) => OnBusiness
    case OtherBusiness(_) => OnBusiness
    case ArgumentNotValid(_) => OnValidacion
    case ConstraintViolation(_) => OnConstraintViolation
    case IllegalArgument(_) => OnIllegalArgument
    case TypeMismatch(_) => OnTypeMismatch
    case NoResourceFound(_) => OnNoResourceFound
    case _ => OnGeneral
  }

  /** Resolution over the class chain selects that handler; in particular every exception is
      handled, since every chain reaches `Exception`. */
  lemma ResolvesToNearest(t: Thrown)
    ensures Resolve(Ancestors(t)) == Some(NearestHandler(t))
  {
    var i := NearestHandled(t);
    ResolveFirstHandled(Ancestors(t), i);
  }

  /** The response to an exception: the handler resolution selects (ResolvesToNearest), run on it.
      Every message-carrying handler echoes the message; the general one never does. */
  function Respond(t: Thrown): (resp: Response)
    ensures t.UsuarioNoEncontrado? ==> resp == Response(NotFound, ErrorBody(t.message))
    ensures t.EmailYaRegistrado? || t.OtherBusiness? ==> resp == Response(BadRequest, ErrorBody(t.message))
    ensures t.ArgumentNotValid? ==> resp == Response(BadRequest, ErrorsToMap(t.fieldErrors))
    ensures t.ConstraintViolation? || t.IllegalArgument? ==> resp == Response(BadRequest, ErrorBody(t.message))
    ensures t.TypeMismatch? && t.requiredType == Some(UuidType) ==> resp == Response(BadRequest, ErrorBody(UuidRequiredMessage))
    ensures t.TypeMismatch? && t.requiredType != Some(UuidType) ==> resp == Response(BadRequest, ErrorBody(OtherTypeMessage))
    ensures t.NoResourceFound? ==> resp == Response(NotFound, ErrorBody(NoResourceMessage))
    ensures t.TicketNotFound? || t.Runtime? || t.NullPointer? || t.Unexpected? ==>
              resp == Response(InternalServerError, ErrorBody(GenericMessage))
  {
    Invoke(NearestHandler(t), t)
  }

  /** A user-not-found exception is also a BusinessException and an Exception, but the handler of
      its own class wins: 404, not 400 or 500. */
  lemma NearestHandlerWins(message: string)
    ensures var chain := Ancestors(UsuarioNoEncontrado(message));
            && HandlerFor(chain[1]) == Some(OnBusiness)
            && HandlerFor(chain[3]) == Some(OnGeneral)
            && Resolve(chain) == Some(OnUsuarioNoEncontrado)
            && Respond(UsuarioNoEncontrado(message)).status == NotFound
  {
    ResolvesToNearest(UsuarioNoEncontrado(message));
  }

  /** TicketNotFoundException extends the tickets package's BusinessException, which no handler here
      names: it falls through to the general handler, and its message is not shown. */
  lemma TicketNotFoundIsInternalError(id: string)
    ensures Resolve(Ancestors(TicketNotFound(TicketNotFoundMessage(id)))) == Some(OnGeneral)
    ensures Respond(TicketNotFound(TicketNotFoundMessage(id))) == Response(InternalServerError, ErrorBody(GenericMessage))
  {
    ResolvesToNearest(TicketNotFound(TicketNotFoundMessage(id)));
  }

  /** A not-found user by id answers 404 with a message naming the id; an e-mail conflict answers
      400 with a message naming the e-mail. */
  lemma UserErrorsNameTheirSubject(id: string, email: string)
    ensures var resp := Respond(UsuarioNoEncontrado(UserIdNotFoundMessage(id)));
            resp.status == NotFound && Contains(resp.body[ErrorKey], id)
    ensures var resp := Respond(EmailYaRegistrado(EmailTakenMessage(email)));
            resp.status == BadRequest && Contains(resp.body[ErrorKey], email)
  {
  }
}

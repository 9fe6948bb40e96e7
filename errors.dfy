/** The exceptions the two services throw, and the result of a service call. */
module Errors {

  datatype Option<+T> = None | Some(value: T)

  /** One rejected request field, as Spring's FieldError reports it. */
  datatype FieldError = FieldError(field: string, defaultMessage: string)

  /** The exceptions that reach the callers of the services and the global handler. */
  datatype Thrown =
    | UsuarioNoEncontrado(message: string)   // users BusinessException subclass
    | EmailYaRegistrado(message: string)     // users BusinessException subclass
    | OtherBusiness(message: string)         // any other users BusinessException
    | TicketNotFound(message: string)        // subclass of the tickets package's own BusinessException
    | ArgumentNotValid(fieldErrors: seq<FieldError>)
    | ConstraintViolation(message: string)
    | IllegalArgument(message: string)
    | TypeMismatch(requiredType: Option<string>)
    | NoResourceFound(message: string)
    | Runtime(message: string)
    | NullPointer
    | Unexpected(message: string)            // anything else

  /** Outcome of a service call: its return value, or the exception it throws. */
  datatype Result<+T> = Ok(value: T) | Err(error: Thrown)

  /** `sub` occurs in `s` starting at index `i`. */
  predicate OccursAt(s: string, sub: string, i: int) {
    0 <= i <= |s| - |sub| && s[i..i + |sub|] == sub
  }

  /** `sub` occurs somewhere inside `s`. */
  ghost predicate Contains(s: string, sub: string) {
    exists i :: OccursAt(s, sub, i)
  }

  lemma SuffixContained(prefix: string, tail: string)
    ensures Contains(prefix + tail, tail)
  {
    var s := prefix + tail;
    assert OccursAt(s, tail, |prefix|);
  }

  /** Message of `new EmailYaRegistradoException(email)`. */
  function EmailTakenMessage(email: string): (m: string)
    ensures Contains(m, email)
  {
    var m := "El correo electrónico '" + email + "' ya está registrado.";
    assert OccursAt(m, email, |"El correo electrónico '"|);
    m
  }

  /** The shape shared by the not-found and failure messages: a fixed text followed by the value
      the exception is about. The message begins with the text and names the value. */
  function WithSubject(text: string, subject: string): (m: string)
    ensures |m| == |text| + |subject| && m[..|text|] == text
    ensures Contains(m, subject)
  {
    SuffixContained(text, subject);
    text + subject
  }

  /** Message of `new UsuarioNoEncontradoException(id)`: a UUID argument selects the Object overload. */
  function UserIdNotFoundMessage(id: string): string {
    WithSubject("No se encontró el usuario con: ", id)
  }

  /** Message of `new UsuarioNoEncontradoException(email)`: a String argument selects the String overload. */
  function UserEmailNotFoundMessage(email: string): string {
    WithSubject("No se encontró el usuario con email: ", email)
  }

  /** Message of `new TicketNotFoundException(id.toString())`. */
  function TicketNotFoundMessage(id: string): string {
    WithSubject("No se encontró el ticket con el ID: ", id)
  }

  /** Each not-found message names what was looked for, and the two overloads of the users
      exception never produce the same text, whatever the two arguments are. */
  lemma {:induction false} NotFoundMessagesNameSubject(id: string, email: string)
    ensures Contains(UserIdNotFoundMessage(id), id)
    ensures Contains(UserEmailNotFoundMessage(email), email)
    ensures Contains(TicketNotFoundMessage(id), id)
    ensures UserIdNotFoundMessage(id) != UserEmailNotFoundMessage(email)
  {
    var byId, byEmail := UserIdNotFoundMessage(id), UserEmailNotFoundMessage(email);
    assert byId[..31] == "No se encontró el usuario con: ";
    assert byEmail[..37] == "No se encontró el usuario con email: ";
    assert byId[29] == ':' && byEmail[29] == ' ';
  }
}

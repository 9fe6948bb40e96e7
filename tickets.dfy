/** The ticket record, its request and response shapes, the two status enums, and TicketMapper. */
module Tickets {
  import opened Errors

  /** A UUID, as its canonical text. */
  type Uuid = string

  /** A `LocalDateTime.now()` reading, in seconds of an abstract clock. */
  type Time = nat

  /** TicketEntity.Status. */
  datatype Status = ABIERTO | CERRADO

  /** TicketDTO.Status: a separate enum with the same constants. */
  datatype DtoStatus = ABIERTO | CERRADO

  /** TicketEntity. `id` stays null until the store assigns one when the ticket is saved. */
  datatype TicketEntity = TicketEntity(
    id: Option<Uuid>,
    descripcion: string,
    usuarioId: Uuid,
    fechaCreacion: Time,
    fechaActualizacion: Time,
    status: Status)

  /** CrearTicketDTO. */
  datatype CreateTicketDto = CreateTicketDto(descripcion: string, usuarioId: Uuid)

  /** ActualizarTicketDTO: its status carries no constraint and may be null. */
  datatype UpdateTicketDto = UpdateTicketDto(descripcion: string, status: Option<DtoStatus>)

  /** TicketDTO. */
  datatype TicketDto = TicketDto(
    id: Option<Uuid>,
    descripcion: string,
    usuarioId: Uuid,
    fechaCreacion: Time,
    fechaActualizacion: Time,
    status: DtoStatus)

  /** `Status.name()`. */
  function StatusName(s: Status): string {
    match s
    case ABIERTO => "ABIERTO"
    case CERRADO => "CERRADO"
  }

  /** `Status.valueOf(name)`: exact match of a constant's name, else IllegalArgumentException. */
  function StatusValueOf(name: string): (r: Option<Status>)
    ensures r.Some? ==> StatusName(r.value) == name
    ensures forall s: Status :: StatusName(s) == name ==> r == Some(s)
  {
    if name == "ABIERTO" then Some(Status.ABIERTO)
    else if name == "CERRADO" then Some(Status.CERRADO)
    else None
  }

  /** `TicketDTO.Status.name()`. */
  function DtoStatusName(s: DtoStatus): string {
    match s
    case ABIERTO => "ABIERTO"
    case CERRADO => "CERRADO"
  }

  /** `TicketDTO.Status.valueOf(name)`. */
  function DtoStatusValueOf(name: string): (r: Option<DtoStatus>)
    ensures r.Some? ==> DtoStatusName(r.value) == name
    ensures forall s: DtoStatus :: DtoStatusName(s) == name ==> r == Some(s)
  {
    if name == "ABIERTO" then Some(DtoStatus.ABIERTO)
    else if name == "CERRADO" then Some(DtoStatus.CERRADO)
    else None
  }

  /** The two enums have the same constant names, so each name-based conversion finds a constant. */
  lemma SameConstantNames(s: Status, d: DtoStatus)
    ensures DtoStatusValueOf(StatusName(s)).Some?
    ensures StatusValueOf(DtoStatusName(d)).Some?
  {
    match s
    case ABIERTO => assert DtoStatusName(DtoStatus.ABIERTO) == StatusName(s);
    case CERRADO => assert DtoStatusName(DtoStatus.CERRADO) == StatusName(s);
    match d
    case ABIERTO => assert StatusName(Status.ABIERTO) == DtoStatusName(d);
    case CERRADO => assert StatusName(Status.CERRADO) == DtoStatusName(d);
  }

  /** `TicketDTO.Status.valueOf(status.name())`: total, because both enums have the same names. */
  function ToDtoStatus(s: Status): (d: DtoStatus)
    ensures DtoStatusName(d) == StatusName(s)
  {
    SameConstantNames(s, DtoStatus.ABIERTO);
    DtoStatusValueOf(StatusName(s)).value
  }

  /** `TicketEntity.Status.valueOf(status.name())`: total for the same reason. */
  function ToEntityStatus(d: DtoStatus): (s: Status)
    ensures StatusName(s) == DtoStatusName(d)
  {
    SameConstantNames(Status.ABIERTO, d);
    StatusValueOf(DtoStatusName(d)).value
  }

  /** Converting by name in either direction and back is the identity. */
  lemma StatusConversionRoundTrips(s: Status, d: DtoStatus)
    ensures ToEntityStatus(ToDtoStatus(s)) == s
    ensures ToDtoStatus(ToEntityStatus(d)) == d
  {
    assert StatusValueOf(StatusName(s)) == Some(s);
    assert DtoStatusValueOf(DtoStatusName(d)) == Some(d);
  }

  /** `TicketMapper.toEntity(dto)`: a new open ticket stamped with the clock. */
  function ToEntity(dto: CreateTicketDto, now: Time): (e: TicketEntity)
    ensures e.id.None? && e.status == Status.ABIERTO
    ensures e.descripcion == dto.descripcion && e.usuarioId == dto.usuarioId
    ensures e.fechaCreacion == now && e.fechaActualizacion == now
  {
    TicketEntity(None, dto.descripcion, dto.usuarioId, now, now, Status.ABIERTO)
  }

  /** `TicketMapper.toDTO(entity)`: copies the fields and converts the status by name. */
  function ToDto(e: TicketEntity): (d: TicketDto)
    ensures d.id == e.id && d.descripcion == e.descripcion && d.usuarioId == e.usuarioId
    ensures d.fechaCreacion == e.fechaCreacion && d.fechaActualizacion == e.fechaActualizacion
    ensures DtoStatusName(d.status) == StatusName(e.status)
  {
    TicketDto(e.id, e.descripcion, e.usuarioId, e.fechaCreacion, e.fechaActualizacion, ToDtoStatus(e.status))
  }

  /** `TicketMapper.actualizarEntidad(entity, dto)`: overwrites description, status and update time;
      a null status makes `getStatus().name()` throw. */
  function ActualizarEntidad(e: TicketEntity, dto: UpdateTicketDto, now: Time): (r: Result<TicketEntity>)
    ensures r.Err? <==> dto.status.None?
    ensures r.Err? ==> r.error == NullPointer
    ensures r.Ok? ==> && r.value.descripcion == dto.descripcion
                      && StatusName(r.value.status) == DtoStatusName(dto.status.value)
                      && r.value.fechaActualizacion == now
                      && r.value.id == e.id && r.value.usuarioId == e.usuarioId
                      && r.value.fechaCreacion == e.fechaCreacion
  {
    match dto.status
    case None => Err(NullPointer)
    case Some(st) => Ok(e.(descripcion := dto.descripcion, status := ToEntityStatus(st), fechaActualizacion := now))
  }

  /** The DTO of an updated ticket reports the requested description and status. */
  lemma UpdatedDtoReflectsRequest(e: TicketEntity, dto: UpdateTicketDto, now: Time)
    requires dto.status.Some?
    ensures ActualizarEntidad(e, dto, now).Ok?
    ensures var d := ToDto(ActualizarEntidad(e, dto, now).value);
            d.descripcion == dto.descripcion && d.status == dto.status.value && d.id == e.id
  {
    StatusConversionRoundTrips(Status.ABIERTO, dto.status.value);
  }

  /** Java's `toUpperCase` on one character, for the ASCII letters. */
  function UpperChar(c: char): char {
    if 'a' <= c <= 'z' then (c as int - 32) as char else c
  }

  /** `String.toUpperCase()`, ASCII letters only. */
  function ToUpperCase(s: string): (r: string)
    ensures |r| == |s| && forall i :: 0 <= i < |s| ==> r[i] == UpperChar(s[i])
  {
    seq(|s|, i requires 0 <= i < |s| => UpperChar(s[i]))
  }

  /** `TicketEntity.Status.valueOf(status.toUpperCase())`. */
  function ParseStatus(s: string): Option<Status> {
    StatusValueOf(ToUpperCase(s))
  }

  /** `s` spells the upper-case word `name` with each letter in either case. */
  predicate SpellsIgnoringCase(s: string, name: string) {
    |s| == |name| && forall i :: 0 <= i < |s| ==> s[i] == name[i] || s[i] as int == name[i] as int + 32
  }

  /** A status filter is accepted exactly when it spells a status name in any mix of cases. */
  lemma ParseStatusIgnoresCase(s: string, st: Status)
    ensures ParseStatus(s) == Some(st) <==> SpellsIgnoringCase(s, StatusName(st))
  {
    var name := StatusName(st);
    assert forall i :: 0 <= i < |name| ==> 'A' <= name[i] <= 'Z';
    if SpellsIgnoringCase(s, name) {
      assert ToUpperCase(s) == name;
    }
    if ParseStatus(s) == Some(st) {
      assert ToUpperCase(s) == name;
      forall i | 0 <= i < |s| ensures s[i] == name[i] || s[i] as int == name[i] as int + 32 {
        assert UpperChar(s[i]) == name[i];
      }
    }
  }
}

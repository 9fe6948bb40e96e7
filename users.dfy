/** The user record, its request and response shapes, and UserMapper. */
module Users {
  import opened Errors

  /** A UUID, as its canonical text. */
  type Uuid = string

  /** A `LocalDateTime.now()` reading, in seconds of an abstract clock. */
  type Time = nat

  /** UserEntity. `id` stays null until the store assigns one when the user is saved. */
  datatype UserEntity = UserEntity(
    id: Option<Uuid>,
    nombres: string,
    apellidos: string,
    email: string,
    passwordHash: string,
    rol: string,
    fechaCreacion: Time,
    fechaActualizacion: Time)

  /** CrearUsuarioDTO: the request body of user creation. */
  datatype CreateUserDto = CreateUserDto(nombres: string, apellidos: string, email: string, password: string)

  /** ActualizarUsuarioDTO: the request body of a user update. */
  datatype UpdateUserDto = UpdateUserDto(nombres: string, apellidos: string, email: string)

  /** UserDTO: what the service returns; it has no password hash. */
  datatype UserDto = UserDto(id: Option<Uuid>, nombres: string, apellidos: string, email: string, rol: string)

  /** AuthUserDTO: what the e-mail lookup returns to the gateway. */
  datatype AuthUserDto = AuthUserDto(id: Option<Uuid>, email: string, passwordHash: string, rol: string)

  const RoleUser: string := "USER"
  const RoleAdmin: string := "ADMIN"

  /** `UserMapper.toEntity(dto, passwordHash)`: a new USER with the given hash, never the raw password. */
  function ToEntity(dto: CreateUserDto, passwordHash: string, now: Time): (e: UserEntity)
    ensures e.id.None? && e.rol == RoleUser
    ensures e.nombres == dto.nombres && e.apellidos == dto.apellidos && e.email == dto.email
    ensures e.passwordHash == passwordHash
    ensures e.fechaCreacion == now && e.fechaActualizacion == now
  {
    UserEntity(None, dto.nombres, dto.apellidos, dto.email, passwordHash, RoleUser, now, now)
  }

  /** `UserMapper.toEntityAdmin(dto, passwordHash)`: the same record with role ADMIN. */
  function ToEntityAdmin(dto: CreateUserDto, passwordHash: string, now: Time): (e: UserEntity)
    ensures e == ToEntity(dto, passwordHash, now).(rol := RoleAdmin)
  {
    UserEntity(None, dto.nombres, dto.apellidos, dto.email, passwordHash, RoleAdmin, now, now)
  }

  /** `UserMapper.toDTO(entity)`: copies the public fields. */
  function ToDto(e: UserEntity): (d: UserDto)
    ensures d.id == e.id && d.nombres == e.nombres && d.apellidos == e.apellidos
    ensures d.email == e.email && d.rol == e.rol
  {
    UserDto(e.id, e.nombres, e.apellidos, e.email, e.rol)
  }

  /** `UserMapper.actualizarEntidad(entity, dto)`: overwrites names, e-mail and update time only. */
  function ActualizarEntidad(e: UserEntity, dto: UpdateUserDto, now: Time): (r: UserEntity)
    ensures r.nombres == dto.nombres && r.apellidos == dto.apellidos && r.email == dto.email
    ensures r.fechaActualizacion == now
    ensures r.id == e.id && r.passwordHash == e.passwordHash && r.rol == e.rol
    ensures r.fechaCreacion == e.fechaCreacion
  {
    e.(nombres := dto.nombres, apellidos := dto.apellidos, email := dto.email, fechaActualizacion := now)
  }

  /** The builder in `buscarPorEmail`: id, e-mail, hash and role of the stored user. */
  function ToAuthDto(e: UserEntity): (a: AuthUserDto)
    ensures a.id == e.id && a.email == e.email && a.passwordHash == e.passwordHash && a.rol == e.rol
  {
    AuthUserDto(e.id, e.email, e.passwordHash, e.rol)
  }

  /** The DTO of an updated user reports the update's names and e-mail, and keeps id and role. */
  lemma UpdatedDtoReflectsRequest(e: UserEntity, dto: UpdateUserDto, now: Time)
    ensures ToDto(ActualizarEntidad(e, dto, now)) == UserDto(e.id, dto.nombres, dto.apellidos, dto.email, e.rol)
  {
  }

  /** The DTO exposes nothing of the password hash: users differing only in their hash map to
      the same DTO. */
  lemma ToDtoHidesHash(e: UserEntity, otherHash: string)
    ensures ToDto(e.(passwordHash := otherHash)) == ToDto(e)
  {
  }
}

/** Shared vocabulary of the hospital finance backend: identifiers, instants,
    the enumerations every table uses, and the errors the services raise. */
module Common {

  /** Row identifiers. The database uses UUID strings; the services only ever
      compare them for equality, so a natural number stands in for one. */
  type Id = nat

  /** An instant, in milliseconds since the Unix epoch. */
  type Timestamp = int

  datatype Option<T> = None | Some(value: T)

  datatype Result<T, E> = Ok(value: T) | Err(error: E)

  /** Where an expected inflow comes from. */
  datatype ReceivableOrigin = Paciente | Convenio | EncontroContas

  /** Settlement state of an account receivable. */
  datatype ReceivableStatus = Aberto | Recebido | Parcial | Glosado

  /** Settlement state of an account payable. */
  datatype PayableStatus = Aberto | Pago | Cancelado

  /** The role a person row plays. */
  datatype PersonType = Paciente | Fornecedor | Convenio | Medico

  /** HTTP status class of a service failure. */
  datatype HttpKind = NotFound404 | BadRequest400

  /** The exceptions the services throw, one constructor per message. */
  datatype ServiceError =
    | ReceivableNotFound      // "Conta a receber não encontrada"
    | PayableNotFound         // the payable service's findOne
    | AlreadyReceived         // "Conta já está totalmente recebida"
    | GlosadoCannotReceive    // "Conta glosada não pode ser recebida"
    | AlreadyPaid             // "Conta já está paga"
    | CancelledCannotBePaid   // "Conta cancelada não pode ser paga"
    | NoValidAccount          // "Nenhuma conta válida encontrada"
    | UnsupportedFormat       // "Formato de arquivo não suportado. Use CSV ou XLSX."

  /** Lookups of a missing id answer 404; every rule violation answers 400. */
  function Kind(e: ServiceError): (k: HttpKind)
    ensures k == NotFound404 <==> e == ReceivableNotFound || e == PayableNotFound
  {
    match e
    case ReceivableNotFound => NotFound404
    case PayableNotFound => NotFound404
    case _ => BadRequest400
  }

  /** `value || fallback` for an optional DTO field: absent means "keep". */
  function OrElse<T>(o: Option<T>, fallback: T): T
  {
    match o
    case Some(v) => v
    case None => fallback
  }

  /** Prisma leaves a column untouched when the update value is `undefined`. */
  function Overwrite<T>(update: Option<T>, current: Option<T>): Option<T>
  {
    if update.Some? then update else current
  }
}

/** Row shapes of the tables the scheduling rules read and write
    (app_shivazen/models.py), and the encoding of dates and times as integers. */
module Records {
  import opened Tables

  /** A calendar date as Python's `date.toordinal()`: day 1 is Monday 0001-01-01. */
  type Date = int

  /** A point in time, in whole minutes since midnight starting day 0. */
  type Instant = int

  const MinutesPerDay: int := 1440

  /** A `TimeField` value at minute resolution: minutes since midnight. */
  type MinuteOfDay = m: int | 0 <= m < MinutesPerDay

  /** The calendar date an instant falls on (`instant.date()`). */
  function DateOf(t: Instant): (d: Date)
    ensures d * MinutesPerDay <= t < d * MinutesPerDay + MinutesPerDay
  {
    t / MinutesPerDay
  }

  /** The minute of the day an instant falls on (the clock reading of `instant`). */
  function ClockOf(t: Instant): (m: MinuteOfDay)
    ensures t == DateOf(t) * MinutesPerDay + m
  {
    t % MinutesPerDay
  }

  /** `datetime.combine(d, m)`: the instant at clock reading `m` on date `d`. */
  function Combine(d: Date, m: MinuteOfDay): (t: Instant)
    ensures DateOf(t) == d && ClockOf(t) == m
  {
    d * MinutesPerDay + m
  }

  type ClientId = int
  type ProfId = int
  type ProcId = int
  type ProfileId = int

  /** A status text other than 'AGENDADO' and 'CONFIRMADO'. */
  type OtherStatusName = s: string | s != "AGENDADO" && s != "CONFIRMADO" witness ""

  /** `Atendimento.status_atendimento` is free text; only two values reserve time.
      Those two are `Scheduled` and `Confirmed`; `OtherStatus` carries any other text. */
  datatype Status = Scheduled | Confirmed | OtherStatus(name: OtherStatusName)
  {
    /** The statuses 'AGENDADO' and 'CONFIRMADO' that the queries filter on. */
    predicate Occupying() { Scheduled? || Confirmed? }
  }

  /** An `Atendimento` row: a booking of one procedure with one professional. */
  datatype Booking = Booking(client: ClientId, prof: ProfId, proc: ProcId,
                             start: Instant, end: Instant, status: Status)

  /** A `BloqueioAgenda` row; its professional may be null. */
  datatype Block = Block(prof: Option<ProfId>, start: Instant, end: Instant)

  /** A `DisponibilidadeProfissional` row: the working window of one weekday code. */
  datatype Availability = Availability(prof: ProfId, weekday: int,
                                       startTime: MinuteOfDay, endTime: MinuteOfDay)

  /** A `Profissional` row. */
  datatype Professional = Professional(id: ProfId, active: bool)

  /** A `Procedimento` row; `duracao_minutos` is an unconstrained integer column. */
  datatype Procedure = Procedure(id: ProcId, durationMinutes: int)

  /** A `Cliente` row. The CPF is unique among the rows that have one and may be
      null (`None`); for the other text columns an empty string stands for blank or null. */
  datatype Client = Client(id: ClientId, name: string, cpf: Option<string>, email: string, phone: string)

  /** A `Prontuario` row: the medical chart owned by one client. */
  datatype Chart = Chart(client: ClientId)

  /** A `Perfil` row; `nome` is unique. */
  datatype Profile = Profile(id: ProfileId, name: string, description: string)

  /** A `Usuario` row, without its password hash. */
  datatype User = User(username: string, email: string, firstName: string,
                       profile: Option<ProfileId>, active: bool)
}

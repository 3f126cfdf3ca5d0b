/** The request handlers of app_shivazen/views.py that change or consult the tables:
    booking an appointment (`agendaCadastro`), registering a client (`usuarioCadastro`)
    and resolving a login identifier (`usuarioLogin`). */
module Views {
  import opened Tables
  import opened Records
  import Slots

  // ------------------------------------------------------------------ overlap

  /** The conflict query's row test: a booking of professional `p` whose status is
      'AGENDADO' or 'CONFIRMADO' and whose interval meets [start, end). */
  predicate Clashes(b: Booking, p: ProfId, start: Instant, end: Instant)
  {
    b.prof == p && b.status.Occupying() && b.start < end && b.end > start
  }

  /** `Atendimento.objects.filter(...).exists()`: whether some row clashes. */
  function ConflictExists(table: seq<Booking>, p: ProfId, start: Instant, end: Instant): (r: bool)
    ensures r <==> exists i :: 0 <= i < |table| && Clashes(table[i], p, start, end)
    decreases |table|
  {
    if table == [] then false
    else
      assert forall i :: 1 <= i < |table| ==> table[i] == table[1..][i - 1];
      Clashes(table[0], p, start, end) || ConflictExists(table[1..], p, start, end)
  }

  /** A booking of another professional, or with any other status, never makes a conflict. */
  lemma OthersNeverConflict(table: seq<Booking>, b: Booking, p: ProfId, start: Instant, end: Instant)
    requires b.prof != p || !b.status.Occupying()
    ensures ConflictExists(table + [b], p, start, end) == ConflictExists(table, p, start, end)
  {
    if ConflictExists(table + [b], p, start, end) {
      var i :| 0 <= i < |table + [b]| && Clashes((table + [b])[i], p, start, end);
      assert i < |table| && (table + [b])[i] == table[i];
    }
    if ConflictExists(table, p, start, end) {
      var i :| 0 <= i < |table| && Clashes(table[i], p, start, end);
      assert (table + [b])[i] == table[i];
    }
  }

  /** The schedule is consistent: no two occupying bookings of one professional overlap. */
  ghost predicate NoDoubleBooking(table: seq<Booking>)
  {
    forall i, j :: 0 <= i < |table| && 0 <= j < |table| && i != j && table[i].status.Occupying() ==>
      !Clashes(table[j], table[i].prof, table[i].start, table[i].end)
  }

  /** A booking the conflict query lets through keeps the schedule consistent. */
  lemma InsertKeepsNoDoubleBooking(table: seq<Booking>, b: Booking)
    requires NoDoubleBooking(table)
    requires !ConflictExists(table, b.prof, b.start, b.end)
    ensures NoDoubleBooking(table + [b])
  {
    var t := table + [b];
    forall i, j | 0 <= i < |t| && 0 <= j < |t| && i != j && t[i].status.Occupying()
      ensures !Clashes(t[j], t[i].prof, t[i].start, t[i].end)
    {
      if i == |table| {
        assert t[j] == table[j];
      } else if j == |table| {
        assert t[i] == table[i];
        assert !Clashes(table[i], b.prof, b.start, b.end);
      } else {
        assert t[i] == table[i] && t[j] == table[j];
      }
    }
  }

  // ------------------------------------------------------------------ booking

  /** The posted form of `agendaCadastro`, already parsed; `None` is an absent field.
      The client id comes from the session. */
  datatype BookingRequest = BookingRequest(client: Option<ClientId>, prof: Option<ProfId>,
                                           proc: Option<ProcId>, start: Option<Instant>)

  /** Why a booking is turned away: a field is missing, a referenced row does not exist,
      the time is taken, or a lookup raised something else (MultipleObjectsReturned). */
  datatype BookingError = MissingField | NotFound | Conflict | Unexpected

  /** `all([...])` over the four fields: each is present, and the client id is not the
      falsy 0. */
  predicate Complete(req: BookingRequest)
  {
    req.client.Some? && req.client.value != 0 && req.prof.Some? && req.proc.Some? && req.start.Some?
  }

  function ClientById(clients: seq<Client>, id: ClientId): Lookup<Client>
  {
    Get(clients, (c: Client) => c.id == id)
  }

  function ProfessionalById(professionals: seq<Professional>, id: ProfId): Lookup<Professional>
  {
    Get(professionals, (x: Professional) => x.id == id)
  }

  function ProcedureById(procedures: seq<Procedure>, id: ProcId): Lookup<Procedure>
  {
    Get(procedures, (x: Procedure) => x.id == id)
  }

  /** All three rows the request names exist, each exactly once. */
  predicate Resolved(clients: seq<Client>, professionals: seq<Professional>,
                     procedures: seq<Procedure>, req: BookingRequest)
    requires Complete(req)
  {
    ClientById(clients, req.client.value).Unique?
    && ProfessionalById(professionals, req.prof.value).Unique?
    && ProcedureById(procedures, req.proc.value).Unique?
  }

  /** The end the view computes: start plus the procedure's duration. */
  function RequestedEnd(procedures: seq<Procedure>, req: BookingRequest): Instant
    requires req.proc.Some? && req.start.Some? && ProcedureById(procedures, req.proc.value).Unique?
  {
    req.start.value + ProcedureById(procedures, req.proc.value).value.durationMinutes
  }

  /** What `agendaCadastro` decides for a request: the row it inserts, or the error. */
  function Admit(clients: seq<Client>, professionals: seq<Professional>, procedures: seq<Procedure>,
                 bookings: seq<Booking>, req: BookingRequest): (r: Result<Booking, BookingError>)
    ensures !Complete(req) ==> r == Err(MissingField)
    ensures r.Ok? <==> Complete(req) && Resolved(clients, professionals, procedures, req)
                       && !ConflictExists(bookings, req.prof.value, req.start.value, RequestedEnd(procedures, req))
    ensures r.Ok? ==> r.value.client == req.client.value && r.value.prof == req.prof.value
                      && r.value.proc == req.proc.value && r.value.status == Scheduled
                      && r.value.start == req.start.value
                      && exists k :: 0 <= k < |procedures| && procedures[k].id == req.proc.value
                                     && r.value.end == r.value.start + procedures[k].durationMinutes
    ensures r.Ok? ==> !ConflictExists(bookings, r.value.prof, r.value.start, r.value.end)
    ensures r == Err(Conflict) <==> Complete(req) && Resolved(clients, professionals, procedures, req)
                                    && ConflictExists(bookings, req.prof.value, req.start.value, RequestedEnd(procedures, req))
    ensures r == Err(NotFound) ==> Complete(req)
                                   && ((forall k :: 0 <= k < |clients| ==> clients[k].id != req.client.value)
                                       || (forall k :: 0 <= k < |professionals| ==> professionals[k].id != req.prof.value)
                                       || (forall k :: 0 <= k < |procedures| ==> procedures[k].id != req.proc.value))
    ensures r == Err(Unexpected) ==> Complete(req)
                                     && (ClientById(clients, req.client.value).Ambiguous?
                                         || ProfessionalById(professionals, req.prof.value).Ambiguous?
                                         || ProcedureById(procedures, req.proc.value).Ambiguous?)
  {
    if !Complete(req) then Err(MissingField)
    else
      var p := req.prof.value;
      var start := req.start.value;
      match ClientById(clients, req.client.value)
      case Missing => Err(NotFound)
      case Ambiguous => Err(Unexpected)
      case Unique(_) =>
        match ProfessionalById(professionals, p)
        case Missing => Err(NotFound)
        case Ambiguous => Err(Unexpected)
        case Unique(_) =>
          match ProcedureById(procedures, req.proc.value)
          case Missing => Err(NotFound)
          case Ambiguous => Err(Unexpected)
          case Unique(proc) =>
            var end := start + proc.durationMinutes;
            if ConflictExists(bookings, p, start, end) then Err(Conflict)
            else Ok(Booking(req.client.value, p, proc.id, start, end, Scheduled))
  }

  /** Whatever `agendaCadastro` inserts keeps the schedule consistent. */
  lemma AdmitKeepsNoDoubleBooking(clients: seq<Client>, professionals: seq<Professional>,
                                  procedures: seq<Procedure>, bookings: seq<Booking>, req: BookingRequest)
    requires NoDoubleBooking(bookings)
    requires Admit(clients, professionals, procedures, bookings, req).Ok?
    ensures NoDoubleBooking(bookings + [Admit(clients, professionals, procedures, bookings, req).value])
  {
    InsertKeepsNoDoubleBooking(bookings, Admit(clients, professionals, procedures, bookings, req).value);
  }

  // ------------------------------------------------------------- registration

  /** Why `usuarioCadastro` turns a form away: the CPF or e-mail is already on file, or
      creating the user raised (an existing username equal to the e-mail). */
  datatype RegistrationError = AlreadyRegistered | CreationFailed

  const ClientProfileName: string := "Cliente"
  const ClientProfileDescription: string := "Perfil para clientes da clínica."

  predicate CpfTaken(clients: seq<Client>, cpf: string)
  {
    exists i :: 0 <= i < |clients| && clients[i].cpf == Some(cpf)
  }

  predicate EmailTaken(users: seq<User>, email: string)
  {
    exists i :: 0 <= i < |users| && users[i].email == email
  }

  predicate UsernameTaken(users: seq<User>, username: string)
  {
    exists i :: 0 <= i < |users| && users[i].username == username
  }

  /** Whether `create_user(username=email, ...)` raises: the username is empty, or taken. */
  predicate UserCreationFails(users: seq<User>, email: string)
  {
    email == "" || UsernameTaken(users, email)
  }

  predicate HasProfile(profiles: seq<Profile>, id: ProfileId, name: string)
  {
    exists i :: 0 <= i < |profiles| && profiles[i].id == id && profiles[i].name == name
  }

  /** `Cliente`: ids drawn from the sequence below `next`, primary key unique, and CPF
      unique among the rows that have one (any number of rows may have a null CPF). */
  ghost predicate ClientsOk(clients: seq<Client>, next: ClientId)
  {
    && 0 < next
    && (forall i :: 0 <= i < |clients| ==> 0 < clients[i].id < next)
    && (forall i, j :: 0 <= i < j < |clients| ==> clients[i].id != clients[j].id
                                                   && (clients[i].cpf.None? || clients[i].cpf != clients[j].cpf))
  }

  /** Some client row has this id. */
  ghost predicate HasClient(clients: seq<Client>, id: ClientId)
  {
    exists k :: 0 <= k < |clients| && clients[k].id == id
  }

  /** `Prontuario`: each chart belongs to an existing client, and to no other chart's. */
  ghost predicate ChartsOk(charts: seq<Chart>, clients: seq<Client>)
  {
    && (forall i :: 0 <= i < |charts| ==> HasClient(clients, charts[i].client))
    && (forall i, j :: 0 <= i < j < |charts| ==> charts[i].client != charts[j].client)
  }

  /** `Perfil`: ids drawn from the sequence below `next`, primary key and name unique. */
  ghost predicate ProfilesOk(profiles: seq<Profile>, next: ProfileId)
  {
    && 0 < next
    && (forall i :: 0 <= i < |profiles| ==> 0 < profiles[i].id < next)
    && (forall i, j :: 0 <= i < j < |profiles| ==> profiles[i].id != profiles[j].id && profiles[i].name != profiles[j].name)
  }

  /** What `get_or_create` of the 'Cliente' profile leaves: the profiles unchanged when
      one so named exists, otherwise exactly that profile appended under the next id. */
  ghost predicate ClientProfileSettled(before: seq<Profile>, nextBefore: ProfileId,
                                       after: seq<Profile>, nextAfter: ProfileId)
  {
    if exists i :: 0 <= i < |before| && before[i].name == ClientProfileName then
      after == before && nextAfter == nextBefore
    else
      after == before + [Profile(nextBefore, ClientProfileName, ClientProfileDescription)]
      && nextAfter == nextBefore + 1
  }

  /** `Usuario`: username and e-mail unique, and the profile, when set, exists. */
  ghost predicate UsersOk(users: seq<User>, profiles: seq<Profile>)
  {
    && (forall i, j :: 0 <= i < j < |users| ==> users[i].username != users[j].username && users[i].email != users[j].email)
    && (forall i :: 0 <= i < |users| && users[i].profile.Some? ==>
          exists k :: 0 <= k < |profiles| && profiles[k].id == users[i].profile.value)
  }

  /** A new client with a fresh id and an unused CPF, and its chart, keep the constraints. */
  lemma ClientAdded(clients: seq<Client>, next: ClientId, charts: seq<Chart>, c: Client)
    requires ClientsOk(clients, next) && ChartsOk(charts, clients)
    requires c.id == next && c.cpf.Some? && !CpfTaken(clients, c.cpf.value)
    ensures ClientsOk(clients + [c], next + 1) && ChartsOk(charts + [Chart(c.id)], clients + [c])
  {
    var cs := clients + [c];
    var hs := charts + [Chart(c.id)];
    forall i | 0 <= i < |hs|
      ensures HasClient(cs, hs[i].client)
    {
      if i == |charts| {
        assert cs[|clients|].id == hs[i].client;
      } else {
        assert hs[i] == charts[i];
        var k :| 0 <= k < |clients| && clients[k].id == charts[i].client;
        assert cs[k] == clients[k];
        assert cs[k].id == hs[i].client;
      }
    }
    forall i, j | 0 <= i < j < |hs|
      ensures hs[i].client != hs[j].client
    {
      if j == |charts| {
        assert hs[i] == charts[i];
        var k :| 0 <= k < |clients| && clients[k].id == charts[i].client;
      }
    }
  }

  /** Moving the id sequence on keeps the client constraints. */
  lemma ClientsOkRaised(clients: seq<Client>, next: ClientId)
    requires ClientsOk(clients, next)
    ensures ClientsOk(clients, next + 1)
  {
  }

  /** A profile under a fresh id and an unused name keeps the constraints. */
  lemma ProfileAdded(profiles: seq<Profile>, next: ProfileId, users: seq<User>, x: Profile)
    requires ProfilesOk(profiles, next) && UsersOk(users, profiles)
    requires x.id == next && forall i :: 0 <= i < |profiles| ==> profiles[i].name != x.name
    ensures ProfilesOk(profiles + [x], next + 1) && UsersOk(users, profiles + [x])
  {
    forall i | 0 <= i < |users| && users[i].profile.Some?
      ensures exists k :: 0 <= k < |profiles + [x]| && (profiles + [x])[k].id == users[i].profile.value
    {
      var k :| 0 <= k < |profiles| && profiles[k].id == users[i].profile.value;
      assert (profiles + [x])[k] == profiles[k];
    }
  }

  /** A user with an unused username and e-mail and an existing profile keeps the constraints. */
  lemma UserAdded(users: seq<User>, profiles: seq<Profile>, u: User)
    requires UsersOk(users, profiles)
    requires !UsernameTaken(users, u.username) && !EmailTaken(users, u.email)
    requires u.profile.Some? ==> exists k :: 0 <= k < |profiles| && profiles[k].id == u.profile.value
    ensures UsersOk(users + [u], profiles)
  {
    var us := users + [u];
    forall i | 0 <= i < |us| && us[i].profile.Some?
      ensures exists k :: 0 <= k < |profiles| && profiles[k].id == us[i].profile.value
    {
      if i < |users| {
        assert us[i] == users[i];
      }
    }
  }

  /** The row test of the cleanup `Cliente.objects.filter(cpf=cpf).delete()`: rows it keeps. */
  function OtherCpf(cpf: string): Client -> bool
  {
    (x: Client) => x.cpf != Some(cpf)
  }

  /** The ids of the clients that deletion removes. */
  function DeletedIds(clients: seq<Client>, cpf: string): set<ClientId>
  {
    set x | x in clients && x.cpf == Some(cpf) :: x.id
  }

  /** The charts the `on_delete=CASCADE` of `Prontuario.cliente` keeps. */
  function ChartSurvives(gone: set<ClientId>): Chart -> bool
  {
    (ch: Chart) => ch.client !in gone
  }

  /** Deleting the clients with the CPF just registered leaves the clients as before. */
  lemma ClientDeletionRestores(clients: seq<Client>, c: Client)
    requires c.cpf.Some? && !CpfTaken(clients, c.cpf.value)
    ensures Filter(clients + [c], OtherCpf(c.cpf.value)) == clients
  {
    var keep := OtherCpf(c.cpf.value);
    FilterAppend(clients, c, keep);
    FilterKeepsAll(clients, keep);
  }

  /** The cascade from that deletion removes only the chart just created. */
  lemma ChartDeletionRestores(clients: seq<Client>, next: ClientId, charts: seq<Chart>, c: Client)
    requires ClientsOk(clients, next) && ChartsOk(charts, clients)
    requires c.id == next && c.cpf.Some? && !CpfTaken(clients, c.cpf.value)
    ensures Filter(charts + [Chart(c.id)], ChartSurvives(DeletedIds(clients + [c], c.cpf.value))) == charts
  {
    var gone := DeletedIds(clients + [c], c.cpf.value);
    assert forall x :: x in clients ==> x.cpf != c.cpf;
    assert gone == {c.id};
    var keep := ChartSurvives(gone);
    FilterAppend(charts, Chart(c.id), keep);
    forall i | 0 <= i < |charts|
      ensures keep(charts[i])
    {
      var k :| 0 <= k < |clients| && clients[k].id == charts[i].client;
    }
    FilterKeepsAll(charts, keep);
  }

  /** The tables the handlers read and write, with the next value of each AutoField
      sequence the handlers draw from. */
  class Clinic {
    var clients: seq<Client>
    var charts: seq<Chart>
    var profiles: seq<Profile>
    var users: seq<User>
    var professionals: seq<Professional>
    var procedures: seq<Procedure>
    var bookings: seq<Booking>
    var nextClientId: ClientId
    var nextProfileId: ProfileId

    /** The database constraints the handlers rely on. */
    ghost predicate Valid()
      reads this
    {
      ClientsOk(clients, nextClientId) && ChartsOk(charts, clients)
      && ProfilesOk(profiles, nextProfileId) && UsersOk(users, profiles)
    }

    /** An installation with the given staff and catalogue and nothing else on file. */
    constructor (professionals: seq<Professional>, procedures: seq<Procedure>)
      ensures Valid()
      ensures this.professionals == professionals && this.procedures == procedures
      ensures clients == [] && charts == [] && profiles == [] && users == [] && bookings == []
    {
      this.professionals := professionals;
      this.procedures := procedures;
      clients, charts, profiles, users, bookings := [], [], [], [], [];
      nextClientId, nextProfileId := 1, 1;
    }

    /** `agendaCadastro` on a POST: insert the admitted booking, or change nothing. */
    method Book(req: BookingRequest) returns (r: Result<Booking, BookingError>)
      requires Valid()
      modifies this`bookings
      ensures Valid()
      ensures r == Admit(clients, professionals, procedures, old(bookings), req)
      ensures r.Ok? ==> bookings == old(bookings) + [r.value]
      ensures r.Err? ==> bookings == old(bookings)
      ensures NoDoubleBooking(old(bookings)) ==> NoDoubleBooking(bookings)
    {
      r := Admit(clients, professionals, procedures, bookings, req);
      if r.Ok? {
        if NoDoubleBooking(bookings) {
          InsertKeepsNoDoubleBooking(bookings, r.value);
        }
        bookings := bookings + [r.value];
      }
    }

    /** `Perfil.objects.get_or_create(nome=name, defaults=...)`: the id of the profile
        so named, created when there is none. */
    method GetOrCreateProfile(name: string, description: string) returns (id: ProfileId)
      requires Valid()
      modifies this`profiles, this`nextProfileId
      ensures Valid()
      ensures HasProfile(profiles, id, name)
      ensures |old(profiles)| <= |profiles| && profiles[..|old(profiles)|] == old(profiles)
      ensures (exists i :: 0 <= i < |old(profiles)| && old(profiles)[i].name == name) ==>
                profiles == old(profiles) && nextProfileId == old(nextProfileId)
      ensures (forall i :: 0 <= i < |old(profiles)| ==> old(profiles)[i].name != name) ==>
                id == old(nextProfileId) && nextProfileId == old(nextProfileId) + 1
                && profiles == old(profiles) + [Profile(id, name, description)]
    {
      match Get(profiles, (x: Profile) => x.name == name)
      case Unique(x) =>
        id := x.id;
      case Missing =>
        id := nextProfileId;
        ProfileAdded(profiles, nextProfileId, users, Profile(id, name, description));
        profiles := profiles + [Profile(id, name, description)];
        nextProfileId := nextProfileId + 1;
        assert profiles[|profiles| - 1].id == id;
      case Ambiguous =>
        assert false;
    }

    /** `Cliente.objects.create(...)` followed by `Prontuario.objects.create(cliente=...)`,
        for a CPF not on file. */
    method AddClient(name: string, cpf: string, email: string, phone: string) returns (id: ClientId)
      requires Valid() && !CpfTaken(clients, cpf)
      modifies this`clients, this`charts, this`nextClientId
      ensures Valid()
      ensures id == old(nextClientId) && nextClientId == old(nextClientId) + 1
      ensures clients == old(clients) + [Client(id, name, Some(cpf), email, phone)]
      ensures charts == old(charts) + [Chart(id)]
    {
      id := nextClientId;
      ClientAdded(clients, nextClientId, charts, Client(id, name, Some(cpf), email, phone));
      clients := clients + [Client(id, name, Some(cpf), email, phone)];
      charts := charts + [Chart(id)];
      nextClientId := nextClientId + 1;
    }

    /** `Cliente.objects.filter(cpf=cpf).delete()`, with the deletion cascading to the
        charts of the deleted clients. */
    method DeleteClientsWithCpf(cpf: string)
      modifies this`clients, this`charts
      ensures clients == Filter(old(clients), OtherCpf(cpf))
      ensures charts == Filter(old(charts), ChartSurvives(DeletedIds(old(clients), cpf)))
    {
      var gone := DeletedIds(clients, cpf);
      clients := Filter(clients, OtherCpf(cpf));
      charts := Filter(charts, ChartSurvives(gone));
    }

    /** `Usuario.objects.create_user(...)` for a non-empty username, a username and e-mail
        not on file, and an existing profile. */
    method CreateUser(u: User)
      requires Valid() && u.username != "" && !UsernameTaken(users, u.username) && !EmailTaken(users, u.email)
      requires u.profile.Some? ==> exists k :: 0 <= k < |profiles| && profiles[k].id == u.profile.value
      modifies this`users
      ensures Valid()
      ensures users == old(users) + [u]
    {
      UserAdded(users, profiles, u);
      users := users + [u];
    }

    /** The cleanup deletion right after `AddClient` of client `c`: it removes exactly
        that client and its chart. */
    method UndoAddClient(cpf: string, ghost c: Client, ghost clients0: seq<Client>, ghost charts0: seq<Chart>)
      requires ClientsOk(clients0, c.id) && ChartsOk(charts0, clients0)
      requires c.cpf == Some(cpf) && !CpfTaken(clients0, cpf)
      requires clients == clients0 + [c] && charts == charts0 + [Chart(c.id)] && nextClientId == c.id + 1
      requires ProfilesOk(profiles, nextProfileId) && UsersOk(users, profiles)
      modifies this`clients, this`charts
      ensures Valid()
      ensures clients == clients0 && charts == charts0
    {
      ClientDeletionRestores(clients0, c);
      ChartDeletionRestores(clients0, c.id, charts0, c);
      ClientsOkRaised(clients0, c.id);
      DeleteClientsWithCpf(cpf);
    }

    /** The part of `usuarioCadastro` after the duplicate check: create the client, its
        chart and the 'Cliente' profile if needed, then the user; when creating the user
        raises, delete what was created under this CPF. */
    method CreateAccount(name: string, cpf: string, email: string, phone: string)
      returns (r: Result<ClientId, RegistrationError>)
      requires Valid() && !CpfTaken(clients, cpf) && !EmailTaken(users, email)
      modifies this`clients, this`charts, this`profiles, this`users, this`nextClientId, this`nextProfileId
      ensures Valid()
      ensures r != Err(AlreadyRegistered)
      ensures |old(profiles)| <= |profiles| && profiles[..|old(profiles)|] == old(profiles)
      ensures exists i :: 0 <= i < |profiles| && profiles[i].name == ClientProfileName
      ensures ClientProfileSettled(old(profiles), old(nextProfileId), profiles, nextProfileId)
      ensures nextClientId == old(nextClientId) + 1
      ensures r == Err(CreationFailed) <==> UserCreationFails(old(users), email)
      ensures r == Err(CreationFailed) ==>
                clients == old(clients) && charts == old(charts) && users == old(users)
      ensures r.Ok? ==>
                r.value == old(nextClientId)
                && clients == old(clients) + [Client(r.value, name, Some(cpf), email, phone)]
                && charts == old(charts) + [Chart(r.value)]
                && |users| == |old(users)| + 1 && users[..|old(users)|] == old(users)
                && var u := users[|old(users)|];
                   u.username == email && u.email == email && u.firstName == name && u.active
                   && u.profile.Some? && HasProfile(profiles, u.profile.value, ClientProfileName)
    {
      ghost var clients0, charts0 := clients, charts;
      var id := AddClient(name, cpf, email, phone);
      var profileId := GetOrCreateProfile(ClientProfileName, ClientProfileDescription);
      if UserCreationFails(users, email) {
        // create_user raised (empty or taken username); the handler deletes what it
        // created under this CPF. The profile stays, and the id sequence has moved on.
        UndoAddClient(cpf, Client(id, name, Some(cpf), email, phone), clients0, charts0);
        return Err(CreationFailed);
      }
      CreateUser(User(email, email, name, Some(profileId), true));
      return Ok(id);
    }

    /** `usuarioCadastro` on a POST with the given form fields. */
    method Register(name: string, cpf: string, email: string, phone: string)
      returns (r: Result<ClientId, RegistrationError>)
      requires Valid()
      modifies this`clients, this`charts, this`profiles, this`users, this`nextClientId, this`nextProfileId
      ensures Valid()
      ensures r == Err(AlreadyRegistered) <==> CpfTaken(old(clients), cpf) || EmailTaken(old(users), email)
      ensures r == Err(AlreadyRegistered) ==>
                clients == old(clients) && charts == old(charts) && profiles == old(profiles) && users == old(users)
                && nextClientId == old(nextClientId) && nextProfileId == old(nextProfileId)
      ensures r != Err(AlreadyRegistered) ==>
                |old(profiles)| <= |profiles| && profiles[..|old(profiles)|] == old(profiles)
                && (exists i :: 0 <= i < |profiles| && profiles[i].name == ClientProfileName)
                && ClientProfileSettled(old(profiles), old(nextProfileId), profiles, nextProfileId)
                && nextClientId == old(nextClientId) + 1
      ensures r == Err(CreationFailed) <==>
                !CpfTaken(old(clients), cpf) && !EmailTaken(old(users), email) && UserCreationFails(old(users), email)
      ensures r == Err(CreationFailed) ==>
                clients == old(clients) && charts == old(charts) && users == old(users)
      ensures r.Ok? ==>
                r.value == old(nextClientId)
                && clients == old(clients) + [Client(r.value, name, Some(cpf), email, phone)]
                && charts == old(charts) + [Chart(r.value)]
                && |users| == |old(users)| + 1 && users[..|old(users)|] == old(users)
                && var u := users[|old(users)|];
                   u.username == email && u.email == email && u.firstName == name && u.active
                   && u.profile.Some? && HasProfile(profiles, u.profile.value, ClientProfileName)
    {
      if CpfTaken(clients, cpf) || EmailTaken(users, email) {
        return Err(AlreadyRegistered);
      }
      r := CreateAccount(name, cpf, email, phone);
    }
  }

  // -------------------------------------------------------------------- login

  /** The first step of `usuarioLogin`: the e-mail to authenticate with, a rejection
      before any authentication, or an exception the handler reports as unexpected. */
  datatype LoginStep = Authenticate(email: string) | BadCredentials | LoginFailed

  /** Resolve the posted `login` field: an identifier with '@' is the e-mail itself;
      otherwise it is a CPF, and the e-mail is that client's. A missing field makes
      the '@' test raise. */
  function ResolveLogin(clients: seq<Client>, ident: Option<string>): (r: LoginStep)
    ensures ident.None? ==> r == LoginFailed
    ensures ident.Some? && '@' in ident.value ==> r == Authenticate(ident.value)
    ensures r.Authenticate? ==> r.email != ""
    ensures ident.Some? && '@' !in ident.value && r.Authenticate? ==>
              exists i :: 0 <= i < |clients| && clients[i].cpf == Some(ident.value) && clients[i].email == r.email
    ensures ident.Some? && '@' !in ident.value && !CpfTaken(clients, ident.value) ==> r == BadCredentials
    ensures r.LoginFailed? ==> ident.None? || ClientByCpf(clients, ident.value).Ambiguous?
  {
    if ident.None? then LoginFailed
    else if '@' in ident.value then Authenticate(ident.value)
    else
      match ClientByCpf(clients, ident.value)
      case Missing => BadCredentials
      case Ambiguous => LoginFailed
      case Unique(c) => if c.email == "" then BadCredentials else Authenticate(c.email)
  }

  /** `Cliente.objects.get(cpf=cpf)` for a CPF string: a null CPF never matches. */
  function ClientByCpf(clients: seq<Client>, cpf: string): (r: Lookup<Client>)
    ensures r.Missing? <==> !CpfTaken(clients, cpf)
    ensures r.Unique? ==> r.value in clients && r.value.cpf == Some(cpf)
  {
    Get(clients, (c: Client) => c.cpf == Some(cpf))
  }

  /** A client's CPF (without '@') that no other client shares resolves to that client's
      e-mail, and is rejected when the e-mail is blank; the lookup never raises. */
  lemma CpfResolvesToOwnEmail(clients: seq<Client>, i: int)
    requires 0 <= i < |clients| && clients[i].cpf.Some? && '@' !in clients[i].cpf.value
    requires forall j :: 0 <= j < |clients| && clients[j].cpf == clients[i].cpf ==> j == i
    ensures ResolveLogin(clients, Some(clients[i].cpf.value))
            == if clients[i].email == "" then BadCredentials else Authenticate(clients[i].email)
  {
    var l := ClientByCpf(clients, clients[i].cpf.value);
    assert !l.Missing?;
    assert !l.Ambiguous?;
    var k :| 0 <= k < |clients| && clients[k] == l.value && clients[k].cpf == clients[i].cpf;
    assert k == i;
  }

  /** A client who has just registered with an e-mail can log in by CPF. */
  lemma RegisteredClientResolves(c: Clinic, cpf: string, email: string, id: ClientId, name: string, phone: string)
    requires c.Valid()
    requires |c.clients| > 0 && c.clients[|c.clients| - 1] == Client(id, name, Some(cpf), email, phone)
    requires '@' !in cpf && email != ""
    ensures ResolveLogin(c.clients, Some(cpf)) == Authenticate(email)
  {
    CpfResolvesToOwnEmail(c.clients, |c.clients| - 1);
  }

  // ------------------------------------------- slot listing against booking

  /** The slot listing tests only each slot's start point, the booking its whole
      interval: every booking that clashes with an offered slot starts inside it. */
  lemma OfferedSlotClashesOnlyLater(avails: seq<Availability>, bookings: seq<Booking>, blocks: seq<Block>,
                                    p: ProfId, d: Date, m: MinuteOfDay, labels: seq<string>,
                                    b: Booking, duration: int)
    requires Slots.AvailableSlots(avails, bookings, blocks, p, d) == Ok(labels)
    requires Slots.Label(m) in labels
    requires b in bookings && DateOf(b.start) == d
    requires Clashes(b, p, Combine(d, m), Combine(d, m) + duration)
    ensures Combine(d, m) < b.start < Combine(d, m) + duration
  {
    var l := Slots.FindAvailability(avails, p, Slots.WeekdayCode(d));
    assert l.Unique? by {
      assert labels != [];
    }
    Slots.OfferedSlotIsFree(avails, bookings, blocks, p, d, l.value, labels, m);
    assert b in Slots.BookingsOn(bookings, p, d);
  }

  /** Wednesday 2024-10-30 as a date ordinal. */
  const SampleDay: Date := 739189

  /** A 10-minute booking, 09:10-09:20, of professional 1 on that day. */
  const ShortBooking: Booking := Booking(1, 1, 1, Combine(SampleDay, 550), Combine(SampleDay, 560), Scheduled)

  /** With a 09:00-10:00 Wednesday window and the short booking, 09:00 is listed. */
  lemma ShortBookingLeavesNineListed()
    ensures var listing := Slots.AvailableSlots([Availability(1, 4, 540, 600)], [ShortBooking], [], 1, SampleDay);
            listing.Ok? && "09:00" in listing.value
  {
    var avails := [Availability(1, 4, 540, 600)];
    var a := avails[0];
    assert Slots.WeekdayCode(SampleDay) == 4;
    assert Slots.FindAvailability(avails, 1, 4) == Unique(a);
    var ags := Slots.BookingsOn([ShortBooking], 1, SampleDay);
    var bls := Slots.BlocksOn([], 1, SampleDay);
    assert !Slots.Taken(ags, bls, Combine(SampleDay, 540)) by {
      assert forall x :: x in ags ==> x == ShortBooking;
      assert bls == [];
    }
    var labels := Slots.AvailableSlots(avails, [ShortBooking], [], 1, SampleDay).value;
    Slots.FreeSlotIsOffered(avails, [ShortBooking], [], 1, SampleDay, a, labels, 540);
    Slots.NineOClockLabels();
  }

  /** Booking a 30-minute procedure at 09:00 that day is refused as a conflict. */
  lemma ShortBookingRefusesNine()
    ensures Admit([Client(1, "Ana", Some("1"), "ana@x", "")], [Professional(1, true)], [Procedure(1, 30)],
                  [ShortBooking], BookingRequest(Some(1), Some(1), Some(1), Some(Combine(SampleDay, 540))))
            == Err(Conflict)
  {
    assert Clashes([ShortBooking][0], 1, Combine(SampleDay, 540), Combine(SampleDay, 540) + 30);
  }

  /** The listing offers a start that the booking handler then refuses. */
  lemma OfferedSlotRejectedByBooking()
    ensures var listing := Slots.AvailableSlots([Availability(1, 4, 540, 600)], [ShortBooking], [], 1, SampleDay);
            listing.Ok? && Slots.Label(540) in listing.value
            && Admit([Client(1, "Ana", Some("1"), "ana@x", "")], [Professional(1, true)], [Procedure(1, 30)],
                     [ShortBooking], BookingRequest(Some(1), Some(1), Some(1), Some(Combine(SampleDay, 540))))
               == Err(Conflict)
  {
    ShortBookingLeavesNineListed();
    ShortBookingRefusesNine();
    Slots.NineOClockLabels();
  }

  /** A booking from 23:30 the day before to 00:45 on the sample day. */
  const OvernightBooking: Booking :=
    Booking(1, 1, 1, Combine(SampleDay - 1, 1410), Combine(SampleDay, 45), Scheduled)

  /** The listing considers only bookings that start on the date, so with a 00:00-01:00
      window it lists 00:00 although the overnight booking still runs then. */
  lemma OvernightBookingLeavesMidnightListed()
    ensures var listing := Slots.AvailableSlots([Availability(1, 4, 0, 60)], [OvernightBooking], [], 1, SampleDay);
            listing.Ok? && "00:00" in listing.value
  {
    var avails := [Availability(1, 4, 0, 60)];
    var a := avails[0];
    assert Slots.WeekdayCode(SampleDay) == 4;
    assert Slots.FindAvailability(avails, 1, 4) == Unique(a);
    var ags := Slots.BookingsOn([OvernightBooking], 1, SampleDay);
    var bls := Slots.BlocksOn([], 1, SampleDay);
    assert !Slots.Taken(ags, bls, Combine(SampleDay, 0)) by {
      assert ags == [];
      assert bls == [];
    }
    var labels := Slots.AvailableSlots(avails, [OvernightBooking], [], 1, SampleDay).value;
    Slots.FreeSlotIsOffered(avails, [OvernightBooking], [], 1, SampleDay, a, labels, 0);
    Slots.MidnightLabel();
  }

  /** Booking a 30-minute procedure at 00:00 that day is refused: the overnight booking
      overlaps it. */
  lemma OvernightBookingRefusesMidnight()
    ensures Admit([Client(1, "Ana", Some("1"), "ana@x", "")], [Professional(1, true)], [Procedure(1, 30)],
                  [OvernightBooking], BookingRequest(Some(1), Some(1), Some(1), Some(Combine(SampleDay, 0))))
            == Err(Conflict)
  {
    assert Clashes([OvernightBooking][0], 1, Combine(SampleDay, 0), Combine(SampleDay, 0) + 30);
  }
}

/** The coach's client registry of src/components/AdminPanel.tsx: the client
    list with each client's three daily flags, the "new client" form, the
    per-client activity status and the dashboard counts. */
module Admin {
  import opened Sequences

  datatype Client = Client(
    id: string,
    name: string,
    email: string,
    lastActivity: string,
    workoutCompleted: bool,
    weightLogged: bool,
    mealPlanFollowed: bool,
    sheetsUrl: string,
    docsUrl: string)

  /** The four fields of the "new client" form. */
  datatype ClientForm = ClientForm(name: string, email: string, sheetsUrl: string, docsUrl: string)

  const EmptyClientForm := ClientForm("", "", "", "")

  /** The two clients the registry starts with. */
  const InitialClients: seq<Client> := [
    Client("1", "Nagy János", "nagy.janos@email.com", "2024-01-21 14:30", true, true, true,
           "https://docs.google.com/spreadsheets/d/sample1", "https://docs.google.com/document/d/sample1"),
    Client("2", "Kovács Mária", "kovacs.maria@email.com", "2024-01-21 09:15", false, true, false,
           "https://docs.google.com/spreadsheets/d/sample2", "https://docs.google.com/document/d/sample2")
  ]

  /** The `lastActivity` text of a client that has done nothing yet. */
  const NoActivity := "Még nincs aktivitás"

  /** The day the dashboard calls "today". */
  const Today := "2024-01-21"

  /** The validation of `addClient`: name and email filled in. */
  predicate CanAdd(form: ClientForm) {
    form.name != "" && form.email != ""
  }

  /** The client `addClient` builds; `id` stands for `Date.now().toString()`. */
  function NewClient(id: string, form: ClientForm): (c: Client)
    ensures c.id == id && c.name == form.name && c.email == form.email
    ensures c.sheetsUrl == form.sheetsUrl && c.docsUrl == form.docsUrl
    ensures c.lastActivity == NoActivity
    ensures !c.workoutCompleted && !c.weightLogged && !c.mealPlanFollowed
  {
    Client(id, form.name, form.email, NoActivity, false, false, false, form.sheetsUrl, form.docsUrl)
  }

  // ---------------------------------------------------------------------
  // Activity status

  function IsSet(): bool -> bool {
    (b: bool) => b
  }

  function Flags(c: Client): seq<bool> {
    [c.workoutCompleted, c.weightLogged, c.mealPlanFollowed]
  }

  /** `[workoutCompleted, weightLogged, mealPlanFollowed].filter(Boolean).length`. */
  function CompletedFlags(c: Client): (n: nat)
    ensures n <= 3
    ensures n == 3 <==> c.workoutCompleted && c.weightLogged && c.mealPlanFollowed
    ensures n == 0 <==> !c.workoutCompleted && !c.weightLogged && !c.mealPlanFollowed
  {
    FlagCount(c.workoutCompleted, c.weightLogged, c.mealPlanFollowed);
    |Filter(Flags(c), IsSet())|
  }

  function Bit(b: bool): nat {
    if b then 1 else 0
  }

  lemma FlagCount(a: bool, b: bool, c: bool)
    ensures |Filter([a, b, c], IsSet())| == Bit(a) + Bit(b) + Bit(c)
  {
    assert [a, b, c] == [a] + [b] + [c];
    FilterAppend([a] + [b], [c], IsSet());
    FilterAppend([a], [b], IsSet());
    FilterSingleton(a, IsSet());
    FilterSingleton(b, IsSet());
    FilterSingleton(c, IsSet());
  }

  /** A number from 0 to 9 as its decimal digit. */
  function Digit(n: nat): (d: char)
    requires n <= 9
    ensures '0' <= d <= '9' && d as int - '0' as int == n
  {
    ('0' as int + n) as char
  }

  /** `getActivityStatus`: "<completed>/3". */
  function ActivityStatus(c: Client): string {
    [Digit(CompletedFlags(c))] + "/3"
  }

  /** The status is three characters, a digit from 0 to 3 that reads back as
      the number of set flags, then "/3". */
  lemma ActivityStatusReadsBack(c: Client)
    ensures |ActivityStatus(c)| == 3 && ActivityStatus(c)[1..] == "/3"
    ensures '0' <= ActivityStatus(c)[0] <= '3'
    ensures ActivityStatus(c)[0] as int - '0' as int == CompletedFlags(c)
  {
  }

  /** Two clients have the same status exactly when they have the same
      number of set flags. */
  lemma ActivityStatusDistinguishesCounts(c: Client, d: Client)
    ensures ActivityStatus(c) == ActivityStatus(d) <==> CompletedFlags(c) == CompletedFlags(d)
  {
    if ActivityStatus(c) == ActivityStatus(d) {
      assert ActivityStatus(c)[0] == ActivityStatus(d)[0];
    }
  }

  /** A client just added has done none of the three: status "0/3". */
  lemma NewClientStatus(id: string, form: ClientForm)
    ensures ActivityStatus(NewClient(id, form)) == "0/3"
  {
    var c := NewClient(id, form);
    assert CompletedFlags(c) == 0;
  }

  // ---------------------------------------------------------------------
  // Dashboard counts

  /** JavaScript's `s.includes(part)`: `part` occurs in `s` at some offset. */
  predicate Includes(s: string, part: string) {
    exists i: nat :: i <= |s| && OccursAt(s, part, i)
  }

  /** `part` sits in `s` starting at offset `i`. */
  predicate OccursAt(s: string, part: string, i: nat) {
    i + |part| <= |s| && s[i..i + |part|] == part
  }

  lemma IncludesPrefix(s: string, part: string)
    requires |part| <= |s| && s[..|part|] == part
    ensures Includes(s, part)
  {
    assert OccursAt(s, part, 0);
  }

  function ActiveOn(day: string): Client -> bool {
    (c: Client) => Includes(c.lastActivity, day)
  }

  function CompletedWorkout(): Client -> bool {
    (c: Client) => c.workoutCompleted
  }

  /** "Active today": the clients whose last activity mentions today's date. */
  function ActiveTodayCount(clients: seq<Client>): (n: nat)
    ensures n <= |clients|
    ensures n == 0 <==> forall c :: c in clients ==> !Includes(c.lastActivity, Today)
  {
    var active := Filter(clients, ActiveOn(Today));
    assert active != [] ==> active[0] in active;
    |active|
  }

  /** "Workout completed": the clients whose workout flag is set. */
  function WorkoutCompletedCount(clients: seq<Client>): (n: nat)
    ensures n <= |clients|
    ensures n == 0 <==> forall c :: c in clients ==> !c.workoutCompleted
  {
    var done := Filter(clients, CompletedWorkout());
    assert done != [] ==> done[0] in done;
    |done|
  }

  /** The text of a client without activity mentions no date. */
  lemma NoActivityIsNotToday()
    ensures !Includes(NoActivity, Today)
  {
    assert '2' !in NoActivity;
    forall i: nat | i <= |NoActivity|
      ensures !OccursAt(NoActivity, Today, i)
    {
      if i + |Today| <= |NoActivity| {
        assert NoActivity[i..i + |Today|][0] == NoActivity[i];
        assert NoActivity[i] in NoActivity;
      }
    }
  }

  /** Adding a client raises the client total by one and leaves both other
      dashboard counts as they were: the new client is neither active today
      nor done with a workout. */
  lemma AddedClientChangesOnlyTotal(clients: seq<Client>, id: string, form: ClientForm)
    ensures |clients + [NewClient(id, form)]| == |clients| + 1
    ensures ActiveTodayCount(clients + [NewClient(id, form)]) == ActiveTodayCount(clients)
    ensures WorkoutCompletedCount(clients + [NewClient(id, form)]) == WorkoutCompletedCount(clients)
  {
    NoActivityIsNotToday();
    FilterSnoc(clients, NewClient(id, form), ActiveOn(Today));
    FilterSnoc(clients, NewClient(id, form), CompletedWorkout());
  }

  /** The dashboard as it first shows: two clients, both active today, one
      with the workout done. */
  lemma InitialCounts()
    ensures |InitialClients| == 2
    ensures ActiveTodayCount(InitialClients) == 2
    ensures WorkoutCompletedCount(InitialClients) == 1
  {
    var c0, c1 := InitialClients[0], InitialClients[1];
    IncludesPrefix(c0.lastActivity, Today);
    IncludesPrefix(c1.lastActivity, Today);
    assert InitialClients == [c0] + [c1];
    FilterAppend([c0], [c1], ActiveOn(Today));
    FilterAppend([c0], [c1], CompletedWorkout());
    FilterSingleton(c0, ActiveOn(Today));
    FilterSingleton(c1, ActiveOn(Today));
    FilterSingleton(c0, CompletedWorkout());
    FilterSingleton(c1, CompletedWorkout());
  }

  /** The first client has done all three today, the second one of three. */
  lemma InitialStatuses()
    ensures ActivityStatus(InitialClients[0]) == "3/3"
    ensures ActivityStatus(InitialClients[1]) == "1/3"
  {
    var c1 := InitialClients[1];
    FlagCount(c1.workoutCompleted, c1.weightLogged, c1.mealPlanFollowed);
  }

  // ---------------------------------------------------------------------
  // The component

  class AdminPanel {
    var clients: seq<Client>
    var newClient: ClientForm

    constructor ()
      ensures clients == InitialClients && newClient == EmptyClientForm
    {
      clients := InitialClients;
      newClient := EmptyClientForm;
    }

    /** The form's `onChange` handlers, each replacing one field. */
    method SetName(name: string)
      modifies this
      ensures newClient == old(newClient).(name := name) && clients == old(clients)
    {
      newClient := newClient.(name := name);
    }

    method SetEmail(email: string)
      modifies this
      ensures newClient == old(newClient).(email := email) && clients == old(clients)
    {
      newClient := newClient.(email := email);
    }

    method SetSheetsUrl(sheetsUrl: string)
      modifies this
      ensures newClient == old(newClient).(sheetsUrl := sheetsUrl) && clients == old(clients)
    {
      newClient := newClient.(sheetsUrl := sheetsUrl);
    }

    method SetDocsUrl(docsUrl: string)
      modifies this
      ensures newClient == old(newClient).(docsUrl := docsUrl) && clients == old(clients)
    {
      newClient := newClient.(docsUrl := docsUrl);
    }

    /** `addClient`: without a name or an email an error toast is shown and
        nothing changes; otherwise the new client is appended, the links
        copied as typed, and the form cleared. `added` tells which. */
    method AddClient(id: string) returns (added: bool)
      modifies this
      ensures added == CanAdd(old(newClient))
      ensures !added ==> clients == old(clients) && newClient == old(newClient)
      ensures added ==> clients == old(clients) + [NewClient(id, old(newClient))] && newClient == EmptyClientForm
    {
      if !CanAdd(newClient) {
        return false;
      }
      var client := NewClient(id, newClient);
      clients := clients + [client];
      newClient := EmptyClientForm;
      return true;
    }
  }
}

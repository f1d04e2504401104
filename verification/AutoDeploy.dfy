/** The auto-deploy monitor: what it queues over a run of cycles, and when it asks at all. */
module AutoDeploy {
  import opened Text
  import opened LeaseTiming

  function Clamp(value: int, low: int, high: int): (r: int)
    requires low <= high
    ensures low <= r <= high && (low <= value <= high ==> r == value)
    ensures (value <= low ==> r == low) && (value >= high ==> r == high)
  {
    if value < low then low else if value > high then high else value
  }

  /** resolveAutoDeployRecentQueueTTL, on the configured number of seconds. */
  function RecentQueueTTL(seconds: int): (ttl: int)
    ensures 30 * SECOND <= ttl <= 900 * SECOND && (30 <= seconds <= 900 ==> ttl == seconds * SECOND)
  {
    Clamp(seconds, 30, 900) * SECOND
  }

  function ErrorCooldown(seconds: int): (d: int)
    ensures 20 * SECOND <= d <= 900 * SECOND && (20 <= seconds <= 900 ==> d == seconds * SECOND)
  {
    Clamp(seconds, 20, 900) * SECOND
  }

  function QueueErrorCooldown(seconds: int): (d: int)
    ensures 10 * SECOND <= d <= 300 * SECOND && (10 <= seconds <= 300 ==> d == seconds * SECOND)
  {
    Clamp(seconds, 10, 300) * SECOND
  }

  // ---- what the API reports ----

  datatype Snapshot = Snapshot(service: string, environment: string, status: string, commit: string)

  /** What is known about the deploys of one service in one environment. */
  datatype Known = Known(blocking: bool, commits: set<string>)

  function Commit(sha: string): string { ToLower(TrimSpace(sha)) }

  /** normalizeWorkerEnvironment. */
  function Environment(value: string): string {
    var e := ToLower(TrimSpace(value));
    if e in {"", "prod", "production", "live"} then "prod"
    else if e in {"staging", "stage", "pre-prod", "preprod", "uat"} then "staging"
    else if e in {"dev", "development", "qa", "sandbox", "test", "testing", "preview", "local"} then "dev"
    else e
  }

  predicate Blocking(status: string) {
    ToLower(TrimSpace(status)) in
      {"requested", "scheduled", "preparing", "deploying", "retrying", "queued", "in-progress"}
  }

  function StateKey(service: string, environment: string): string {
    TrimSpace(service) + "|" + Environment(environment)
  }

  /** What one snapshot says; one without a service says nothing, and has no key. */
  datatype Note = Note(key: string, blocking: bool, commit: string)

  function NoteOf(d: Snapshot): Note {
    if TrimSpace(d.service) == "" then Note("", false, "")
    else Note(StateKey(d.service, d.environment), Blocking(d.status), Commit(d.commit))
  }

  function Notes(ds: seq<Snapshot>): (notes: seq<Note>)
    ensures |notes| == |ds| && forall i :: 0 <= i < |ds| ==> notes[i] == NoteOf(ds[i])
  {
    seq(|ds|, i requires 0 <= i < |ds| => NoteOf(ds[i]))
  }

  predicate Speaks(notes: seq<Note>, n: nat, key: string)
    requires n <= |notes|
  {
    key != "" && exists i :: 0 <= i < n && notes[i].key == key
  }

  predicate Blocks(notes: seq<Note>, n: nat, key: string)
    requires n <= |notes|
  {
    exists i :: 0 <= i < n && notes[i].key == key && notes[i].blocking
  }

  predicate Has(notes: seq<Note>, n: nat, key: string, commit: string)
    requires n <= |notes|
  {
    commit != "" && exists i :: 0 <= i < n && notes[i].key == key && notes[i].commit == commit
  }

  /** A table of known deploys says what the first `n` notes say. */
  ghost predicate Tells(states: map<string, Known>, notes: seq<Note>, n: nat)
    requires n <= |notes|
  {
    forall key ::
      && (key in states <==> Speaks(notes, n, key))
      && (key in states ==> (states[key].blocking <==> Blocks(notes, n, key)))
      && (key in states ==> forall c :: c in states[key].commits <==> Has(notes, n, key, c))
  }

  /** What blocks a service, and which commits it had, in terms of the snapshots. */
  lemma NotesMean(ds: seq<Snapshot>, key: string, commit: string)
    ensures Blocks(Notes(ds), |ds|, key) && key != "" <==>
              exists i :: 0 <= i < |ds| && Names(ds[i], key) && Blocking(ds[i].status)
    ensures Has(Notes(ds), |ds|, key, commit) && key != "" <==>
              exists i :: 0 <= i < |ds| && Names(ds[i], key) && Commit(ds[i].commit) == commit != ""
    ensures Speaks(Notes(ds), |ds|, key) <==> exists i :: 0 <= i < |ds| && Names(ds[i], key)
  {
    var notes := Notes(ds);
    forall i | 0 <= i < |ds| ensures Names(ds[i], key) <==> notes[i].key == key != "" {
      KeyIsNotBlank(ds[i].service, ds[i].environment);
    }
    assert forall i :: 0 <= i < |ds| && Names(ds[i], key) ==>
             notes[i] == Note(key, Blocking(ds[i].status), Commit(ds[i].commit));
  }

  /** The snapshot is one of the service and environment of this key. */
  predicate Names(d: Snapshot, key: string) {
    TrimSpace(d.service) != "" && StateKey(d.service, d.environment) == key
  }

  /** buildAutoDeployStates. */
  method BuildStates(ds: seq<Snapshot>) returns (states: map<string, Known>)
    ensures Tells(states, Notes(ds), |ds|)
  {
    states := map[];
    ghost var notes := Notes(ds);
    for i := 0 to |ds|
      invariant Tells(states, notes, i)
    {
      states := AddSnapshot(states, ds[i], notes, i);
    }
  }

  method AddSnapshot(states: map<string, Known>, d: Snapshot, ghost notes: seq<Note>, ghost i: nat)
    returns (more: map<string, Known>)
    requires i < |notes| && notes[i] == NoteOf(d) && Tells(states, notes, i)
    ensures Tells(more, notes, i + 1)
  {
    if TrimSpace(d.service) == "" {
      TellsNothing(states, notes, i);
      return states;
    }
    var note := NoteOf(d);
    KeyIsNotBlank(d.service, d.environment);
    var state := if note.key in states then states[note.key] else Known(false, {});
    if note.blocking { state := state.(blocking := true); }
    if note.commit != "" { state := state.(commits := state.commits + {note.commit}); }
    more := states[note.key := state];
    TellsMore(states, more, notes, i);
  }

  lemma KeyIsNotBlank(service: string, environment: string)
    ensures StateKey(service, environment) != ""
  {
  }

  lemma TellsNothing(states: map<string, Known>, notes: seq<Note>, i: nat)
    requires i < |notes| && notes[i] == Note("", false, "") && Tells(states, notes, i)
    ensures Tells(states, notes, i + 1)
  {
  }

  lemma TellsMore(states: map<string, Known>, more: map<string, Known>, notes: seq<Note>, i: nat)
    requires i < |notes| && notes[i].key != "" && Tells(states, notes, i)
    requires var note := notes[i];
             var state := if note.key in states then states[note.key] else Known(false, {});
             more == states[note.key := Known(state.blocking || note.blocking,
                                              if note.commit == "" then state.commits else state.commits + {note.commit})]
    ensures Tells(more, notes, i + 1)
  {
    forall key ensures Speaks(notes, i + 1, key) <==> Speaks(notes, i, key) || notes[i].key == key {
    }
    forall key ensures Blocks(notes, i + 1, key) <==> Blocks(notes, i, key) || (notes[i].key == key && notes[i].blocking) {
    }
    forall key, c
      ensures Has(notes, i + 1, key, c) <==> Has(notes, i, key, c) || (c != "" && notes[i].key == key && notes[i].commit == c)
    {
    }
    assert notes[i].key !in states ==> !Blocks(notes, i, notes[i].key) && forall c :: !Has(notes, i, notes[i].key, c);
  }

  // ---- the monitor ----

  /** A service to watch. `enabled` sums up the checks on its switch, template, status, repository and source. */
  datatype Watched = Watched(id: string, enabled: bool, target: string)

  /** shouldAutoDeployService. */
  predicate IsWanted(w: Watched, environment: string, known: bool) {
    w.enabled && (if TrimSpace(w.target) != "" then Environment(w.target) == Environment(environment) else known)
  }

  datatype Lookup = Found(sha: string) | LookupFailed

  /** The API's answer to a queue request: the commit of the deploy it names, if any. */
  datatype QueueAnswer = Response(sha: string) | QueueFailed

  /** queueAutoDeploy. */
  predicate IsQueued(answer: QueueAnswer, commit: string) {
    answer.Response? && (Commit(answer.sha) == "" || Commit(answer.sha) == commit)
  }

  /**
   * One cycle: the one time it reads, how the API and the repository answer, and the moments at which the API
   * takes a queue request.
   */
  datatype Cycle = Cycle(
    now: int, granted: bool, listed: bool, services: seq<Watched>, snapshots: seq<Snapshot>,
    lookups: nat -> Lookup, answers: nat -> QueueAnswer, moments: nat -> int)

  /** No request of the cycle is taken before the cycle reads the time, nor more than `d` after it. */
  ghost predicate Lasts(c: Cycle, d: int) {
    forall k: nat :: c.now <= c.moments(k) <= c.now + d
  }

  function QueueKey(state: string, commit: string): string { state + "|" + commit }

  /**
   * What the monitor did: looked up a commit, failed and set a cooldown, queued a deploy. `at` is the time the cycle
   * read, `moment` the time the deploy was queued.
   */
  datatype Event =
    | Asked(service: string, at: int)
    | Failed(service: string, until: int)
    | Queued(state: string, commit: string, at: int, moment: int)

  predicate SameDeploy(a: Event, b: Event) {
    a.Queued? && b.Queued? && a.state == b.state && a.commit == b.commit
  }

  /** Two deploys queued for one service, environment and commit are at least `ttl` apart. */
  predicate Spaced(log: seq<Event>, ttl: int) {
    forall i, j :: 0 <= i < j < |log| && SameDeploy(log[i], log[j]) ==> log[j].at - log[i].at >= ttl
  }

  /** Deploys queued from `n` on were queued in a cycle that lasts `d`. */
  predicate Prompt(log: seq<Event>, n: nat, d: int) {
    forall i :: n <= i < |log| && log[i].Queued? ==> log[i].at <= log[i].moment <= log[i].at + d
  }

  /** The same deploy is queued again no sooner than `gap` after it was queued. */
  predicate QueuedApart(log: seq<Event>, n: nat, gap: int) {
    forall i, j :: n <= i < j < |log| && SameDeploy(log[i], log[j]) ==> log[j].moment - log[i].moment >= gap
  }

  /** Since remembering counts from the time the cycle read, a slow cycle takes its length off the spacing. */
  lemma QueuedApartAtLeast(log: seq<Event>, n: nat, ttl: int, d: int)
    requires Spaced(log, ttl) && Prompt(log, n, d)
    ensures QueuedApart(log, n, ttl - d)
  {
  }

  /** After a failure the service is left alone until its cooldown is over. */
  predicate Cooled(log: seq<Event>) {
    forall i, j :: 0 <= i < j < |log| && log[i].Failed? && log[j].Asked? && log[i].service == log[j].service ==>
      log[i].until <= log[j].at
  }

  function Expiry(table: map<string, int>, key: string, otherwise: int): int {
    if key in table then table[key] else otherwise
  }

  predicate Active(table: map<string, int>, key: string, now: int) { key in table && table[key] > now }

  /** Everything queued whose time is not over is in the table for that long. */
  predicate Remembers(log: seq<Event>, ttl: int, clock: int, table: map<string, int>) {
    forall i :: 0 <= i < |log| && log[i].Queued? ==>
      log[i].at + ttl <= Expiry(table, QueueKey(log[i].state, log[i].commit), clock)
      || log[i].at + ttl <= clock
  }

  predicate Cools(log: seq<Event>, clock: int, table: map<string, int>) {
    forall i :: 0 <= i < |log| && log[i].Failed? ==>
      log[i].until <= Expiry(table, log[i].service, clock) || log[i].until <= clock
  }

  /** No answer at `now` or later differs. */
  ghost predicate SameLater(a: map<string, int>, b: map<string, int>, now: int) {
    forall key, t :: now <= t ==> Active(b, key, t) == Active(a, key, t)
  }

  /** One of the two loops of evictExpired. */
  method Evict(table: map<string, int>, now: int) returns (rest: map<string, int>)
    ensures SameLater(table, rest, now)
    ensures forall key :: key in rest <==> key in table && table[key] > now
    ensures forall key :: key in rest ==> rest[key] == table[key]
  {
    rest := table;
    var keys := table.Keys;
    while keys != {}
      invariant keys <= rest.Keys <= table.Keys && forall key :: key in rest ==> rest[key] == table[key]
      invariant SameLater(table, rest, now)
      invariant forall key :: key in table && key !in keys ==> (key in rest <==> table[key] > now)
      decreases |keys|
    {
      var key :| key in keys;
      if table[key] <= now { rest := rest - {key}; }
      keys := keys - {key};
    }
  }

  lemma AskedMore(log: seq<Event>, e: Event, ttl: int, clock: int, queued: map<string, int>, cooldown: map<string, int>)
    requires Spaced(log, ttl) && Remembers(log, ttl, clock, queued) && Cooled(log) && Cools(log, clock, cooldown)
    requires e.Asked? && e.at == clock && !Active(cooldown, e.service, clock)
    ensures var more := log + [e];
            Spaced(more, ttl) && Remembers(more, ttl, clock, queued) && Cooled(more) && Cools(more, clock, cooldown)
  {
  }

  lemma FailedMore(log: seq<Event>, e: Event, ttl: int, clock: int, queued: map<string, int>, cooldown: map<string, int>)
    requires Spaced(log, ttl) && Remembers(log, ttl, clock, queued) && Cooled(log) && Cools(log, clock, cooldown)
    requires e.Failed? && e.until > clock && !Active(cooldown, e.service, clock)
    ensures var more := log + [e];
            Spaced(more, ttl) && Remembers(more, ttl, clock, queued) && Cooled(more)
            && Cools(more, clock, cooldown[e.service := e.until])
  {
  }

  lemma QueuedMore(log: seq<Event>, e: Event, ttl: int, clock: int, queued: map<string, int>, cooldown: map<string, int>)
    requires Spaced(log, ttl) && Remembers(log, ttl, clock, queued) && Cooled(log) && Cools(log, clock, cooldown)
    requires e.Queued? && e.at == clock && !Active(queued, QueueKey(e.state, e.commit), clock) && ttl > 0
    ensures var more := log + [e];
            Spaced(more, ttl) && Remembers(more, ttl, clock, queued[QueueKey(e.state, e.commit) := clock + ttl])
            && Cooled(more) && Cools(more, clock, cooldown)
  {
  }

  lemma ClearedCools(log: seq<Event>, clock: int, cooldown: map<string, int>, service: string)
    requires Cools(log, clock, cooldown) && !Active(cooldown, service, clock)
    ensures Cools(log, clock, cooldown - {service})
  {
  }

  /** The table knows at least what the snapshots say. */
  ghost predicate Covers(states: map<string, Known>, notes: seq<Note>) {
    forall key :: key != "" ==>
      && (Blocks(notes, |notes|, key) ==> key in states && states[key].blocking)
      && (forall c :: Has(notes, |notes|, key, c) ==> key in states && c in states[key].commits)
  }

  lemma TellingCovers(states: map<string, Known>, notes: seq<Note>)
    requires Tells(states, notes, |notes|)
    ensures Covers(states, notes)
  {
    forall key | key != "" && Blocks(notes, |notes|, key) ensures key in states && states[key].blocking {
      assert Speaks(notes, |notes|, key);
    }
    forall key, c | key != "" && Has(notes, |notes|, key, c) ensures key in states && c in states[key].commits {
      assert Speaks(notes, |notes|, key);
    }
  }

  /** What it does not know to speak against a deploy, the snapshots do not either; and it may come to know more. */
  lemma CoveredSpeaks(states: map<string, Known>, notes: seq<Note>, key: string, commit: string)
    requires Covers(states, notes) && key != ""
    requires key in states ==> !states[key].blocking && commit !in states[key].commits
    ensures !Blocks(notes, |notes|, key) && !Has(notes, |notes|, key, commit)
    ensures Covers(WithCommit(states, key, commit), notes)
  {
  }

  /** Nothing is queued for a service with a deploy under way, nor a commit that was deployed before. */
  ghost predicate Justified(log: seq<Event>, from: nat, notes: seq<Note>) {
    forall i :: from <= i < |log| && log[i].Queued? ==>
      !Blocks(notes, |notes|, log[i].state) && !Has(notes, |notes|, log[i].state, log[i].commit)
  }

  /** The latest commit that a lookup finds, in normal form. */
  function Latest(lookup: Lookup): string { if lookup.Found? then Commit(lookup.sha) else "" }

  /** The monitor looks for a service's latest commit: it is wanted, nothing blocks it, and it is not cooling down. */
  predicate Asks(wanted: bool, id: string, key: string, states: map<string, Known>, cooldown: map<string, int>, now: int) {
    wanted && !(key in states && states[key].blocking) && !Active(cooldown, id, now)
  }

  /** Then it asks for a deploy of that commit: there is one, it is new, and it is not remembered. */
  predicate Requests(key: string, commit: string, states: map<string, Known>, queued: map<string, int>, now: int) {
    commit != "" && !(key in states && commit in states[key].commits) && !Active(queued, QueueKey(key, commit), now)
  }

  /** From `n` on nothing is queued but `e`, and that only if `queues`. */
  predicate OnlyQueued(log: seq<Event>, n: nat, queues: bool, e: Event) {
    forall i :: n <= i < |log| && log[i].Queued? ==> queues && log[i] == e
  }

  lemma LogJoins(log: seq<Event>, a: seq<Event>, b: seq<Event>)
    ensures log + a + b == log + (a + b)
  {
  }

  lemma SliceQueued(log: seq<Event>, n: nat, queues: bool, e: Event)
    requires n <= |log| && OnlyQueued(log[n..], 0, queues, e)
    ensures OnlyQueued(log, n, queues, e)
  {
    assert forall i :: n <= i < |log| ==> log[i] == log[n..][i - n];
  }

  /** A service without an id is never cooled down. */
  function Marked(table: map<string, int>, id: string, until: int): map<string, int> {
    if id == "" then table else table[id := until]
  }

  /** What is known to be deployed once a commit is queued. */
  function WithCommit(states: map<string, Known>, key: string, commit: string): map<string, Known> {
    var state := if key in states then states[key] else Known(false, {});
    states[key := state.(commits := state.commits + {commit})]
  }

  /** The tables when a service's turn comes, and how long the log is then. */
  datatype Desk = Desk(states: map<string, Known>, cooldown: map<string, int>, queued: map<string, int>, at: nat)

  predicate Decided(more: seq<Event>, asks: bool, queues: bool, service: string, key: string, commit: string, now: int,
                    moment: int) {
    && (more == [] <==> !asks)
    && (asks ==> more[0] == Asked(service, now))
    && (if queues then more == [Asked(service, now), Queued(key, commit, now, moment)]
        else forall i :: 0 <= i < |more| ==> !more[i].Queued?)
  }

  /**
   * What a queued deploy takes: automatic deploys are on, the service is meant for this environment, or has been
   * deployed to it before if it is meant for none, there is a commit, and the answer names that or no commit.
   */
  predicate Earned(w: Watched, environment: string, known: bool, lookup: Lookup, answer: QueueAnswer) {
    && w.enabled && (TrimSpace(w.target) == "" ==> known)
    && (TrimSpace(w.target) != "" ==> Environment(w.target) == Environment(environment))
    && lookup.Found? && Commit(lookup.sha) != ""
    && answer.Response? && (Commit(answer.sha) == "" || Commit(answer.sha) == Commit(lookup.sha))
  }

  class Monitor {
    const environment: string
    const ttl: int
    const errorCooldown: int
    const queueCooldown: int
    var recentlyQueued: map<string, int>
    var cooldown: map<string, int>
    ghost var log: seq<Event>
    ghost var clock: int

    /** The times are in seconds, as configured. */
    constructor (environment: string, pending: int, error: int, queueError: int)
      ensures Valid() && ttl == RecentQueueTTL(pending) && this.environment == environment
      ensures errorCooldown == ErrorCooldown(error) && queueCooldown == QueueErrorCooldown(queueError)
      ensures log == [] && clock == 0 && recentlyQueued == map[] && cooldown == map[]
    {
      this.environment := environment;
      ttl, errorCooldown, queueCooldown :=
        RecentQueueTTL(pending), ErrorCooldown(error), QueueErrorCooldown(queueError);
      recentlyQueued, cooldown, log, clock := map[], map[], [], 0;
    }

    ghost predicate Valid()
      reads this
    {
      && ttl >= 30 * SECOND && errorCooldown > 0 && queueCooldown > 0
      && Spaced(log, ttl) && Remembers(log, ttl, clock, recentlyQueued)
      && Cooled(log) && Cools(log, clock, cooldown)
    }

    /** evictExpired, which no later lookup can notice. */
    method EvictExpired(now: int)
      requires Valid() && clock <= now
      modifies this
      ensures Valid() && clock == now && log == old(log)
      ensures SameLater(old(recentlyQueued), recentlyQueued, now) && SameLater(old(cooldown), cooldown, now)
    {
      recentlyQueued := Evict(recentlyQueued, now);
      cooldown := Evict(cooldown, now);
      clock := now;
    }

    /** The cooldowns after a turn: a failure starts one, and a lookup that goes well ends it. */
    function CooldownAfter(table: map<string, int>, id: string, asks: bool, requests: bool, now: int, lookup: Lookup,
                           answer: QueueAnswer): map<string, int> {
      if !asks then table
      else if lookup.LookupFailed? then Marked(table, id, now + errorCooldown)
      else if requests && answer.QueueFailed? then Marked(table - {id}, id, now + queueCooldown)
      else table - {id}
    }

    /** The failures of a turn, as they are logged. */
    predicate FailsAs(more: seq<Event>, id: string, now: int, lookup: Lookup) {
      forall i :: 0 <= i < |more| && more[i].Failed? ==>
        more[i] == Failed(id, now + if lookup.LookupFailed? then errorCooldown else queueCooldown)
    }

    /** Service `w` has its turn between `a` and `b`: what is logged, and what becomes of the tables. */
    ghost predicate Passes(w: Watched, a: Desk, b: Desk, trail: seq<Event>, now: int, lookup: Lookup,
                           answer: QueueAnswer, moment: int) {
      var key := StateKey(w.id, environment);
      Keyed(TrimSpace(w.id), key, IsWanted(w, environment, key in a.states), a, b, trail, now, lookup, answer, moment)
    }

    /** The same, by the service's id, its key, and whether it is wanted. */
    ghost predicate Keyed(id: string, key: string, wanted: bool, a: Desk, b: Desk, trail: seq<Event>, now: int,
                          lookup: Lookup, answer: QueueAnswer, moment: int) {
      var asks := Asks(wanted, id, key, a.states, a.cooldown, now);
      var requests := Requests(key, Latest(lookup), a.states, a.queued, now);
      a.at <= b.at <= |trail| && Left(id, key, asks, requests, a, b, trail[a.at..b.at], now, lookup, answer, moment)
    }

    /** The same, given whether the service is asked for and whether a deploy is requested then. */
    ghost predicate Left(id: string, key: string, asks: bool, requests: bool, a: Desk, b: Desk, more: seq<Event>, now: int,
                         lookup: Lookup, answer: QueueAnswer, moment: int) {
      var commit := Latest(lookup);
      var queues := asks && requests && IsQueued(answer, commit);
      && Decided(more, asks, queues, id, key, commit, now, moment) && FailsAs(more, id, now, lookup)
      && b.cooldown == CooldownAfter(a.cooldown, id, asks, requests, now, lookup, answer)
      && b.queued == (if queues then a.queued[QueueKey(key, commit) := now + ttl] else a.queued)
      && b.states == (if queues then WithCommit(a.states, key, commit) else a.states)
    }

    /** All services of a cycle have their turns, each where the one before it ended. */
    ghost predicate InTurn(c: Cycle, desks: seq<Desk>, trail: seq<Event>) {
      && |desks| == |c.services| + 1
      && forall i :: 0 <= i < |c.services| ==>
           Passes(c.services[i], desks[i], desks[i + 1], trail, c.now, c.lookups(i), c.answers(i), c.moments(i))
    }

    /** markServiceCooldown after a failure. A blank service id is never cooled down. */
    method Cool(service: string, until: int)
      requires Valid() && until > clock && !Active(cooldown, service, clock)
      modifies this`cooldown, this`log
      ensures Valid() && (log == old(log) || log == old(log) + [Failed(service, until)])
      ensures cooldown == Marked(old(cooldown), service, until)
    {
      if service != "" {
        FailedMore(log, Failed(service, until), ttl, clock, recentlyQueued, cooldown);
        cooldown := cooldown[service := until];
        log := log + [Failed(service, until)];
      }
    }

    /** The lookup of the latest commit, with the cooldown of a failed one. */
    method LookUp(service: string, now: int, lookup: Lookup) returns (commit: string, ghost more: seq<Event>)
      requires Valid() && now == clock && !Active(cooldown, service, clock)
      modifies this`cooldown, this`log
      ensures Valid() && log == old(log) + more && commit == Latest(lookup)
      ensures more == [Asked(service, now)]
              || (lookup.LookupFailed? && more == [Asked(service, now), Failed(service, now + errorCooldown)])
      ensures cooldown == if lookup.Found? then old(cooldown) - {service} else Marked(old(cooldown), service, now + errorCooldown)
    {
      more := [Asked(service, now)];
      AskedMore(log, Asked(service, clock), ttl, clock, recentlyQueued, cooldown);
      log := log + [Asked(service, clock)];
      if lookup.LookupFailed? {
        Cool(service, now + errorCooldown);
        return "", log[|old(log)|..];
      }
      ClearedCools(log, clock, cooldown, service);
      cooldown := cooldown - {service};
      return Commit(lookup.sha), more;
    }

    /** The queue request, with the cooldown of a failed one. */
    method Queue(service: string, state: string, commit: string, now: int, answer: QueueAnswer, ghost moment: int)
      returns (queued: bool, ghost more: seq<Event>)
      requires Valid() && now == clock && !Active(cooldown, service, clock)
      requires !Active(recentlyQueued, QueueKey(state, commit), clock)
      modifies this`cooldown, this`log, this`recentlyQueued
      ensures Valid() && log == old(log) + more && (queued <==> IsQueued(answer, commit))
      ensures recentlyQueued == if queued then old(recentlyQueued)[QueueKey(state, commit) := now + ttl]
                                else old(recentlyQueued)
      ensures cooldown == if answer.QueueFailed? then Marked(old(cooldown), service, now + queueCooldown) else old(cooldown)
      ensures if queued then more == [Queued(state, commit, clock, moment)]
              else more == [] || more == [Failed(service, now + queueCooldown)]
    {
      if answer.QueueFailed? {
        Cool(service, now + queueCooldown);
        return false, log[|old(log)|..];
      }
      if !IsQueued(answer, commit) { return false, []; }
      QueuedMore(log, Queued(state, commit, clock, moment), ttl, clock, recentlyQueued, cooldown);
      recentlyQueued := recentlyQueued[QueueKey(state, commit) := now + ttl];
      more := [Queued(state, commit, clock, moment)];
      log := log + more;
      return true, more;
    }

    /** One service's turn in a cycle, once it is known whether the service is wanted. */
    method Decide(id: string, key: string, wanted: bool, states: map<string, Known>, now: int, lookup: Lookup,
                  answer: QueueAnswer, ghost moment: int)
      returns (queued: bool, ghost asks: bool, ghost requests: bool, ghost more: seq<Event>)
      requires Valid() && now == clock
      modifies this`cooldown, this`log, this`recentlyQueued
      ensures Valid() && log == old(log) + more
      ensures asks <==> Asks(wanted, id, key, states, old(cooldown), now)
      ensures requests <==> Requests(key, Latest(lookup), states, old(recentlyQueued), now)
      ensures queued <==> asks && requests && IsQueued(answer, Latest(lookup))
      ensures Decided(more, asks, queued, id, key, Latest(lookup), now, moment) && FailsAs(more, id, now, lookup)
      ensures cooldown == CooldownAfter(old(cooldown), id, asks, requests, now, lookup, answer)
      ensures recentlyQueued == if queued then old(recentlyQueued)[QueueKey(key, Latest(lookup)) := now + ttl]
                                else old(recentlyQueued)
    {
      queued, more := false, [];
      asks := Asks(wanted, id, key, states, cooldown, now);
      requests := Requests(key, Latest(lookup), states, recentlyQueued, now);
      if !wanted { return; }
      if key in states && states[key].blocking { return; }
      if Active(cooldown, id, now) { return; }
      queued, more := Ask(id, key, states, now, lookup, answer, moment, requests);
    }

    /** The turn of a service that nothing speaks against. */
    method Ask(id: string, key: string, states: map<string, Known>, now: int, lookup: Lookup, answer: QueueAnswer,
               ghost moment: int, ghost requests: bool)
      returns (queued: bool, ghost more: seq<Event>)
      requires Valid() && now == clock && !Active(cooldown, id, now)
      requires requests <==> Requests(key, Latest(lookup), states, recentlyQueued, now)
      modifies this`cooldown, this`log, this`recentlyQueued
      ensures Valid() && log == old(log) + more
      ensures queued <==> requests && IsQueued(answer, Latest(lookup))
      ensures Decided(more, true, queued, id, key, Latest(lookup), now, moment) && FailsAs(more, id, now, lookup)
      ensures cooldown == CooldownAfter(old(cooldown), id, true, requests, now, lookup, answer)
      ensures recentlyQueued == if queued then old(recentlyQueued)[QueueKey(key, Latest(lookup)) := now + ttl]
                                else old(recentlyQueued)
    {
      queued := false;
      var commit;
      ghost var second;
      commit, more := LookUp(id, now, lookup);
      if commit == "" { return; }
      if key in states && commit in states[key].commits { return; }
      if Active(recentlyQueued, QueueKey(key, commit), now) { return; }
      queued, second := Queue(id, key, commit, now, answer, moment);
      LogJoins(old(log), more, second);
      more := more + second;
      RequestLogged(id, key, commit, queued, more, second, now, moment, lookup);
    }

    /** What is logged of a service that was asked for and had a deploy requested. */
    lemma RequestLogged(id: string, key: string, commit: string, queued: bool, more: seq<Event>, second: seq<Event>,
                        now: int, moment: int, lookup: Lookup)
      requires more == [Asked(id, now)] + second && lookup.Found?
      requires if queued then second == [Queued(key, commit, now, moment)]
               else second == [] || second == [Failed(id, now + queueCooldown)]
      ensures Decided(more, true, queued, id, key, commit, now, moment) && FailsAs(more, id, now, lookup)
    {
    }

    /** One service's turn in a cycle. */
    method Consider(w: Watched, states: map<string, Known>, now: int, lookup: Lookup, answer: QueueAnswer,
                    ghost moment: int, ghost d: int, ghost notes: seq<Note>)
      returns (more: map<string, Known>)
      requires Valid() && now == clock && Covers(states, notes) && now <= moment <= now + d
      modifies this`cooldown, this`log, this`recentlyQueued
      ensures Valid() && old(log) <= log && Covers(more, notes) && Justified(log, |old(log)|, notes)
      ensures Prompt(log, |old(log)|, d)
      ensures Passes(w, Desk(states, old(cooldown), old(recentlyQueued), |old(log)|),
                     Desk(more, cooldown, recentlyQueued, |log|), log, now, lookup, answer, moment)
      ensures |log| == |old(log)| + 2 && log[|log| - 1].Queued? ==>
                Earned(w, environment, StateKey(w.id, environment) in states, lookup, answer)
    {
      ghost var a := Desk(states, cooldown, recentlyQueued, |log|);
      more := TakeTurn(w, states, now, lookup, answer, moment);
      TurnIsJustified(w, a, Desk(more, cooldown, recentlyQueued, |log|), log, now, lookup, answer, moment, d, notes);
    }

    method TakeTurn(w: Watched, states: map<string, Known>, now: int, lookup: Lookup, answer: QueueAnswer,
                    ghost moment: int)
      returns (more: map<string, Known>)
      requires Valid() && now == clock
      modifies this`cooldown, this`log, this`recentlyQueued
      ensures Valid() && old(log) <= log
      ensures Passes(w, Desk(states, old(cooldown), old(recentlyQueued), |old(log)|),
                     Desk(more, cooldown, recentlyQueued, |log|), log, now, lookup, answer, moment)
    {
      more := states;
      var key := StateKey(w.id, environment);
      var queued;
      ghost var asks, requests, trail;
      ghost var a := Desk(states, cooldown, recentlyQueued, |log|);
      queued, asks, requests, trail :=
        Decide(TrimSpace(w.id), key, IsWanted(w, environment, key in states), states, now, lookup, answer, moment);
      if queued { more := WithCommit(states, key, Latest(lookup)); }
      assert Left(TrimSpace(w.id), key, asks, requests, a, Desk(more, cooldown, recentlyQueued, |log|), trail, now, lookup,
                  answer, moment);
      assert log[a.at..|log|] == trail;
    }

    /** A turn queues nothing that the snapshots, or the turns before it, speak against. */
    lemma TurnIsJustified(w: Watched, a: Desk, b: Desk, trail: seq<Event>, now: int, lookup: Lookup, answer: QueueAnswer,
                          moment: int, d: int, notes: seq<Note>)
      requires Passes(w, a, b, trail, now, lookup, answer, moment) && b.at == |trail|
      requires Covers(a.states, notes) && now <= moment <= now + d
      ensures Covers(b.states, notes) && Justified(trail, a.at, notes) && Prompt(trail, a.at, d)
      ensures b.at == a.at + 2 && trail[b.at - 1].Queued? ==>
                Earned(w, environment, StateKey(w.id, environment) in a.states, lookup, answer)
    {
      var queues := TurnQueues(w, a, b, trail, now, lookup, answer, moment);
      if queues {
        AnswerIsEarned(w, StateKey(w.id, environment) in a.states, lookup, answer);
        CoveredSpeaks(a.states, notes, StateKey(w.id, environment), Latest(lookup));
      }
    }

    /** And what is earned is queued, unless something speaks against it. */
    lemma EarnedIsQueued(w: Watched, a: Desk, b: Desk, trail: seq<Event>, now: int, lookup: Lookup, answer: QueueAnswer,
                         moment: int)
      requires Passes(w, a, b, trail, now, lookup, answer, moment)
      requires var key := StateKey(w.id, environment);
               && Earned(w, environment, key in a.states, lookup, answer)
               && (key in a.states ==> !a.states[key].blocking && Commit(lookup.sha) !in a.states[key].commits)
               && !Active(a.queued, QueueKey(key, Commit(lookup.sha)), now)
      requires !Active(a.cooldown, TrimSpace(w.id), now)
      ensures trail[a.at..b.at] == [Asked(TrimSpace(w.id), now),
                                    Queued(StateKey(w.id, environment), Commit(lookup.sha), now, moment)]
    {
      var key := StateKey(w.id, environment);
      EarnedIsWanted(w, key in a.states, lookup, answer);
      OpenIsQueued(TrimSpace(w.id), key, a, b, trail, now, lookup, answer, moment);
    }

    lemma EarnedIsWanted(w: Watched, known: bool, lookup: Lookup, answer: QueueAnswer)
      requires Earned(w, environment, known, lookup, answer)
      ensures IsWanted(w, environment, known) && Latest(lookup) == Commit(lookup.sha) && IsQueued(answer, Latest(lookup))
    {
    }

    lemma OpenIsQueued(id: string, key: string, a: Desk, b: Desk, trail: seq<Event>, now: int, lookup: Lookup,
                       answer: QueueAnswer, moment: int)
      requires Keyed(id, key, true, a, b, trail, now, lookup, answer, moment) && !Active(a.cooldown, id, now)
      requires key in a.states ==> !a.states[key].blocking && Latest(lookup) !in a.states[key].commits
      requires Latest(lookup) != "" && !Active(a.queued, QueueKey(key, Latest(lookup)), now)
      requires IsQueued(answer, Latest(lookup))
      ensures trail[a.at..b.at] == [Asked(id, now), Queued(key, Latest(lookup), now, moment)]
    {
    }

    lemma AnswerIsEarned(w: Watched, known: bool, lookup: Lookup, answer: QueueAnswer)
      requires IsWanted(w, environment, known) && Latest(lookup) != "" && IsQueued(answer, Latest(lookup))
      ensures Earned(w, environment, known, lookup, answer)
    {
    }

    /** Whether a deploy is queued, and what speaks for it then. */
    lemma TurnQueues(w: Watched, a: Desk, b: Desk, trail: seq<Event>, now: int, lookup: Lookup, answer: QueueAnswer,
                     moment: int)
      returns (queues: bool)
      requires Passes(w, a, b, trail, now, lookup, answer, moment) && b.at == |trail|
      ensures var key, commit := StateKey(w.id, environment), Latest(lookup);
              && (queues ==> IsWanted(w, environment, key in a.states) && commit != "" && IsQueued(answer, commit))
              && (queues ==> key != "" && (key in a.states ==> !a.states[key].blocking && commit !in a.states[key].commits))
              && b.states == (if queues then WithCommit(a.states, key, commit) else a.states)
              && OnlyQueued(trail, a.at, queues, Queued(key, commit, now, moment))
    {
      KeyIsNotBlank(w.id, environment);
      var key := StateKey(w.id, environment);
      queues := KeyedQueues(TrimSpace(w.id), key, IsWanted(w, environment, key in a.states), a, b, trail, now, lookup, answer,
                            moment);
    }

    lemma KeyedQueues(id: string, key: string, wanted: bool, a: Desk, b: Desk, trail: seq<Event>, now: int, lookup: Lookup,
                      answer: QueueAnswer, moment: int)
      returns (queues: bool)
      requires Keyed(id, key, wanted, a, b, trail, now, lookup, answer, moment) && b.at == |trail|
      ensures var commit := Latest(lookup);
              && (queues ==> wanted && commit != "" && IsQueued(answer, commit))
              && (queues && key in a.states ==> !a.states[key].blocking && commit !in a.states[key].commits)
              && b.states == (if queues then WithCommit(a.states, key, commit) else a.states)
              && OnlyQueued(trail, a.at, queues, Queued(key, commit, now, moment))
    {
      var commit := Latest(lookup);
      var asks, requests := Asks(wanted, id, key, a.states, a.cooldown, now), Requests(key, commit, a.states, a.queued, now);
      queues := asks && requests && IsQueued(answer, commit);
      LeftQueues(id, key, asks, requests, a, b, trail[a.at..b.at], now, lookup, answer, moment);
      SliceQueued(trail, a.at, queues, Queued(key, commit, now, moment));
    }

    lemma LeftQueues(id: string, key: string, asks: bool, requests: bool, a: Desk, b: Desk, more: seq<Event>, now: int,
                     lookup: Lookup, answer: QueueAnswer, moment: int)
      requires Left(id, key, asks, requests, a, b, more, now, lookup, answer, moment)
      ensures OnlyQueued(more, 0, asks && requests && IsQueued(answer, Latest(lookup)),
                         Queued(key, Latest(lookup), now, moment))
    {
    }

    /** The turns of all services, one after the other. */
    method TakeTurns(c: Cycle, known: map<string, Known>, ghost d: int) returns (ghost desks: seq<Desk>)
      requires Valid() && clock == c.now && Lasts(c, d) && Tells(known, Notes(c.snapshots), |c.snapshots|)
      modifies this`cooldown, this`log, this`recentlyQueued
      ensures Valid() && old(log) <= log && Justified(log, |old(log)|, Notes(c.snapshots))
      ensures Prompt(log, |old(log)|, d)
      ensures InTurn(c, desks, log) && desks[0] == Desk(known, old(cooldown), old(recentlyQueued), |old(log)|)
      ensures desks[|c.services|] == Desk(desks[|c.services|].states, cooldown, recentlyQueued, |log|)
    {
      var states := known;
      ghost var notes := Notes(c.snapshots);
      TellingCovers(states, notes);
      desks := [Desk(states, cooldown, recentlyQueued, |log|)];
      for i := 0 to |c.services|
        invariant Valid() && clock == c.now && old(log) <= log
        invariant Covers(states, notes) && Justified(log, |old(log)|, notes)
        invariant Prompt(log, |old(log)|, d)
        invariant |desks| == i + 1 && desks[i] == Desk(states, cooldown, recentlyQueued, |log|)
        invariant desks[0] == Desk(known, old(cooldown), old(recentlyQueued), |old(log)|)
        invariant TurnsTo(c, desks, log, i)
      {
        ghost var before := log;
        states := Consider(c.services[i], states, c.now, c.lookups(i), c.answers(i), c.moments(i), d, notes);
        TurnsMore(c, desks, before, log, i, Desk(states, cooldown, recentlyQueued, |log|));
        desks := desks + [Desk(states, cooldown, recentlyQueued, |log|)];
      }
      TurnsAre(c, desks, log, |c.services|);
    }

    /** The first `n` services have had their turns. */
    ghost predicate TurnsTo(c: Cycle, desks: seq<Desk>, trail: seq<Event>, n: nat) {
      && n < |desks| && n <= |c.services|
      && (n > 0 ==>
            && TurnsTo(c, desks, trail, n - 1)
            && Passes(c.services[n - 1], desks[n - 1], desks[n], trail, c.now, c.lookups(n - 1), c.answers(n - 1),
                      c.moments(n - 1)))
    }

    /** What was a turn stays one as the log grows. */
    lemma {:induction false} TurnsLater(c: Cycle, desks: seq<Desk>, more: seq<Desk>, before: seq<Event>, after: seq<Event>,
                                        n: nat)
      requires TurnsTo(c, desks, before, n) && before <= after && desks <= more
      ensures TurnsTo(c, more, after, n)
    {
      if n > 0 {
        TurnsLater(c, desks, more, before, after, n - 1);
        PassesLater(c.services[n - 1], desks[n - 1], desks[n], before, after, c.now, c.lookups(n - 1), c.answers(n - 1),
                    c.moments(n - 1));
        assert more[n - 1] == desks[n - 1] && more[n] == desks[n];
      }
    }

    lemma PassesLater(w: Watched, a: Desk, b: Desk, before: seq<Event>, after: seq<Event>, now: int, lookup: Lookup,
                      answer: QueueAnswer, moment: int)
      requires Passes(w, a, b, before, now, lookup, answer, moment) && before <= after
      ensures Passes(w, a, b, after, now, lookup, answer, moment)
    {
      assert after[a.at..b.at] == before[a.at..b.at];
    }

    lemma TurnsMore(c: Cycle, desks: seq<Desk>, before: seq<Event>, after: seq<Event>, n: nat, next: Desk)
      requires TurnsTo(c, desks, before, n) && |desks| == n + 1 && n < |c.services| && before <= after
      requires Passes(c.services[n], desks[n], next, after, c.now, c.lookups(n), c.answers(n), c.moments(n))
      ensures TurnsTo(c, desks + [next], after, n + 1)
    {
      TurnsLater(c, desks, desks + [next], before, after, n);
    }

    lemma {:induction false} TurnsAre(c: Cycle, desks: seq<Desk>, trail: seq<Event>, n: nat)
      requires TurnsTo(c, desks, trail, n)
      ensures forall i :: 0 <= i < n ==>
                Passes(c.services[i], desks[i], desks[i + 1], trail, c.now, c.lookups(i), c.answers(i), c.moments(i))
    {
      if n > 0 { TurnsAre(c, desks, trail, n - 1); }
    }

    /**
     * runAutoDeployCycle. Every service has its turn, with the tables as the services before it left them, and without
     * the lease nothing is done. Validity is the point: over any run of cycles with a clock that does not run
     * backwards, cycles that queue equal deploys read times at least `ttl` apart, and failures are cooled down.
     */
    method RunCycle(c: Cycle, ghost d: int) returns (ghost desks: seq<Desk>)
      requires Valid() && clock <= c.now && Lasts(c, d)
      modifies this
      ensures Valid() && old(log) <= log && clock <= c.now && Justified(log, |old(log)|, Notes(c.snapshots))
      ensures Prompt(log, |old(log)|, d)
      ensures c.granted && c.listed ==>
                && InTurn(c, desks, log) && Tells(desks[0].states, Notes(c.snapshots), |c.snapshots|)
                && desks[0].at == |old(log)| && desks[|c.services|].at == |log|
                && SameLater(old(cooldown), desks[0].cooldown, c.now) && desks[|c.services|].cooldown == cooldown
                && SameLater(old(recentlyQueued), desks[0].queued, c.now) && desks[|c.services|].queued == recentlyQueued
      ensures !(c.granted && c.listed) ==> log == old(log)
    {
      desks := [];
      if !c.granted { return; }
      EvictExpired(c.now);
      if !c.listed { return; }
      var known := BuildStates(c.snapshots);
      desks := TakeTurns(c, known, d);
    }

    /** Over any run of cycles of at most `d`, the same deploy is not queued twice within `ttl - d`. */
    method RunCycles(cycles: seq<Cycle>, ghost d: int)
      requires Valid() && (cycles != [] ==> clock <= cycles[0].now)
      requires forall i :: 0 <= i < |cycles| - 1 ==> cycles[i].now <= cycles[i + 1].now
      requires forall i :: 0 <= i < |cycles| ==> Lasts(cycles[i], d)
      modifies this
      ensures Valid() && old(log) <= log && Spaced(log, ttl) && Cooled(log)
      ensures QueuedApart(log, |old(log)|, ttl - d)
    {
      for i := 0 to |cycles|
        invariant Valid() && old(log) <= log && (i < |cycles| ==> clock <= cycles[i].now)
        invariant Prompt(log, |old(log)|, d)
      {
        var _ := RunCycle(cycles[i], d);
      }
      QueuedApartAtLeast(log, |old(log)|, ttl, d);
    }
  }
}

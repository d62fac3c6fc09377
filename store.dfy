/** The server's request handlers over its key-value store (index.tsx):
    profile merge, storing an assessment and a diet plan, booking and
    listing appointments, adding and listing progress entries. The store is
    one map from keys to stored values; each table is a key prefix. The
    authenticated user's id, the clock reading and the generated record ids
    are parameters. */
module Store {
  import opened Common
  import Scoring
  import Knowledge

  /** A JSON value as the handlers receive and store it. */
  datatype Json = Str(s: string) | Num(n: int) | Bool(b: bool) | Null | Arr(items: seq<Json>) | Obj(fields: map<string, Json>)

  type Fields = map<string, Json>

  /** The values the handlers write: plain records, lists of record ids, the
      assessment result and the diet plan record. */
  datatype Stored =
    | Record(fields: Fields)
    | IdList(ids: seq<string>)
    | AssessmentResult(result: Scoring.Assessment)
    | PlanData(userId: string, plan: Knowledge.DietPlan, createdAt: int, preferences: Json, goals: Json, restrictions: Json)

  // ---------------------------------------------------------------------
  // Tables and the shape of what each holds

  datatype Kind = Plain | Dated | List | Assessment | Plan

  /** The key prefixes the handlers use, with what each table holds. */
  const Tables: seq<(string, Kind)> := [
    ("user:", Plain), ("appointment:", Plain), ("progress:", Dated),
    ("appointments:", List), ("progress_list:", List),
    ("prakriti:", Assessment), ("diet_plan:", Plan)]

  const UserTable := 0
  const AppointmentTable := 1
  const ProgressTable := 2
  const AppointmentListTable := 3
  const ProgressListTable := 4
  const PrakritiTable := 5
  const DietPlanTable := 6

  function Key(table: nat, id: string): string
    requires table < |Tables|
  {
    Tables[table].0 + id
  }

  predicate HasDate(f: Fields) {
    "date" in f && f["date"].Num?
  }

  predicate Fits(v: Stored, kind: Kind) {
    match kind
    case Plain => v.Record?
    case Dated => v.Record? && HasDate(v.fields)
    case List => v.IdList?
    case Assessment => v.AssessmentResult?
    case Plan => v.PlanData?
  }

  ghost predicate Schema(k: string, v: Stored) {
    forall i :: 0 <= i < |Tables| && HasPrefix(k, Tables[i].0) ==> Fits(v, Tables[i].1)
  }

  ghost predicate WellFormed(kv: map<string, Stored>) {
    forall k :: k in kv ==> Schema(k, kv[k])
  }

  lemma {:induction false} NotPrefixEither(p: string, q: string, x: string)
    requires !HasPrefix(p, q) && !HasPrefix(q, p)
    ensures !HasPrefix(p + x, q)
  {
    if |q| <= |p| {
      assert (p + x)[..|q|] == p[..|q|];
    } else if |q| <= |p + x| {
      assert (p + x)[..|q|][..|p|] == p;
    }
  }

  /** No table's prefix starts another's, so a key belongs to one table. */
  lemma TablesDisjoint(i: nat, j: nat)
    requires i < |Tables| && j < |Tables| && i != j
    ensures !HasPrefix(Tables[i].0, Tables[j].0)
  {
    var a, b := Tables[i].0, Tables[j].0;
    if |b| <= |a| {
      assert a[..|b|][0] == a[0] && a[..|b|][2] == a[2];
      if |b| > 8 {
        assert a[..|b|][8] == a[8];
      }
      if |b| > 11 {
        assert a[..|b|][11] == a[11];
      }
    }
  }

  /** A key of table `t` lies in no other table. */
  lemma {:induction false} KeyTable(t: nat, id: string, i: nat)
    requires t < |Tables| && i < |Tables|
    ensures HasPrefix(Key(t, id), Tables[i].0) <==> i == t
  {
    if i == t {
      PrefixOfConcat(Tables[t].0, id);
    } else {
      TablesDisjoint(t, i);
      TablesDisjoint(i, t);
      NotPrefixEither(Tables[t].0, Tables[i].0, id);
    }
  }

  /** What each table holds. */
  lemma TableKinds()
    ensures && Tables[UserTable].1 == Plain && Tables[AppointmentTable].1 == Plain
            && Tables[ProgressTable].1 == Dated && Tables[AppointmentListTable].1 == List
            && Tables[ProgressListTable].1 == List && Tables[PrakritiTable].1 == Assessment
            && Tables[DietPlanTable].1 == Plan
  {
  }

  lemma {:induction false} WriteKeepsWellFormed(kv: map<string, Stored>, t: nat, id: string, v: Stored)
    requires WellFormed(kv) && t < |Tables| && Fits(v, Tables[t].1)
    ensures WellFormed(kv[Key(t, id) := v])
  {
    forall i | 0 <= i < |Tables| && HasPrefix(Key(t, id), Tables[i].0)
      ensures Fits(v, Tables[i].1)
    {
      KeyTable(t, id, i);
    }
  }

  lemma {:induction false} KeysOfTwoTables(t: nat, u: nat, x: string, y: string)
    requires t < |Tables| && u < |Tables| && t != u
    ensures Key(t, x) != Key(u, y)
  {
    KeyTable(t, x, t);
    KeyTable(u, y, t);
  }

  // ---------------------------------------------------------------------
  // Reads with the handlers' fallbacks

  /** `kv.get(key) || []` for an id list. */
  function IdsAt(kv: map<string, Stored>, key: string): seq<string> {
    if key in kv && kv[key].IdList? then kv[key].ids else []
  }

  /** `kv.get(key) || {}` for a record to be spread. */
  function FieldsAt(kv: map<string, Stored>, key: string): Fields {
    if key in kv && kv[key].Record? then kv[key].fields else map[]
  }

  /** The records the ids name, in list order, skipping ids without one. */
  function ResolveIds(kv: map<string, Stored>, table: nat, ids: seq<string>): seq<Stored>
    requires table < |Tables|
  {
    if ids == [] then []
    else
      var init := ResolveIds(kv, table, ids[..|ids| - 1]);
      var key := Key(table, ids[|ids| - 1]);
      if key in kv then init + [kv[key]] else init
  }

  /** Bounds of resolution: never more results than ids, each result the
      record of one of the ids, and one result per id, in order, when every
      id resolves. The laws below pin down the general case. */
  lemma {:induction false} ResolveIdsSpec(kv: map<string, Stored>, table: nat, ids: seq<string>)
    requires table < |Tables|
    ensures |ResolveIds(kv, table, ids)| <= |ids|
    ensures forall r :: r in ResolveIds(kv, table, ids) ==>
      exists i :: 0 <= i < |ids| && Key(table, ids[i]) in kv && kv[Key(table, ids[i])] == r
    ensures (forall i :: 0 <= i < |ids| ==> Key(table, ids[i]) in kv) ==>
      |ResolveIds(kv, table, ids)| == |ids| &&
      forall i :: 0 <= i < |ids| ==> ResolveIds(kv, table, ids)[i] == kv[Key(table, ids[i])]
  {
    if ids != [] {
      var init := ids[..|ids| - 1];
      ResolveIdsSpec(kv, table, init);
      assert forall i :: 0 <= i < |init| ==> init[i] == ids[i];
    }
  }

  /** Resolving a list is resolving its two parts and concatenating the
      results: list order is kept, and each id contributes its own record
      or, when it has none, nothing. */
  lemma {:induction false} ResolveIdsAppend(kv: map<string, Stored>, table: nat, a: seq<string>, b: seq<string>)
    requires table < |Tables|
    ensures ResolveIds(kv, table, a + b) == ResolveIds(kv, table, a) + ResolveIds(kv, table, b)
  {
    if b != [] {
      var init := b[..|b| - 1];
      assert (a + b)[..|a + b| - 1] == a + init;
      assert (a + b)[|a + b| - 1] == b[|b| - 1];
      ResolveIdsAppend(kv, table, a, init);
    } else {
      assert a + b == a;
    }
  }

  /** One id resolves to its record, or to nothing when it has none. */
  lemma ResolveOne(kv: map<string, Stored>, table: nat, id: string)
    requires table < |Tables|
    ensures ResolveIds(kv, table, [id]) == if Key(table, id) in kv then [kv[Key(table, id)]] else []
  {
    assert [id][..0] == [];
  }

  /** Every id that has a record contributes it, at the place the id holds
      in the list: the records of the ids before it come first and those of
      the ids after it follow. */
  lemma ResolveIdsKeepsRecords(kv: map<string, Stored>, table: nat, ids: seq<string>, i: nat)
    requires table < |Tables| && i < |ids| && Key(table, ids[i]) in kv
    ensures ResolveIds(kv, table, ids)
      == ResolveIds(kv, table, ids[..i]) + [kv[Key(table, ids[i])]] + ResolveIds(kv, table, ids[i + 1..])
    ensures kv[Key(table, ids[i])] in ResolveIds(kv, table, ids)
  {
    assert ids == ids[..i] + [ids[i]] + ids[i + 1..];
    ResolveIdsAppend(kv, table, ids[..i] + [ids[i]], ids[i + 1..]);
    ResolveIdsAppend(kv, table, ids[..i], [ids[i]]);
    ResolveOne(kv, table, ids[i]);
  }

  /** An id without a record contributes nothing. */
  lemma ResolveIdsSkipsMissing(kv: map<string, Stored>, table: nat, ids: seq<string>, i: nat)
    requires table < |Tables| && i < |ids| && Key(table, ids[i]) !in kv
    ensures ResolveIds(kv, table, ids) == ResolveIds(kv, table, ids[..i]) + ResolveIds(kv, table, ids[i + 1..])
  {
    assert ids == ids[..i] + [ids[i]] + ids[i + 1..];
    ResolveIdsAppend(kv, table, ids[..i] + [ids[i]], ids[i + 1..]);
    ResolveIdsAppend(kv, table, ids[..i], [ids[i]]);
    ResolveOne(kv, table, ids[i]);
  }

  lemma {:induction false} ResolveIdsInTable(kv: map<string, Stored>, table: nat, ids: seq<string>)
    requires table < |Tables| && WellFormed(kv)
    ensures forall r :: r in ResolveIds(kv, table, ids) ==> Fits(r, Tables[table].1)
  {
    ResolveIdsSpec(kv, table, ids);
    forall r | r in ResolveIds(kv, table, ids)
      ensures Fits(r, Tables[table].1)
    {
      var i :| 0 <= i < |ids| && Key(table, ids[i]) in kv && kv[Key(table, ids[i])] == r;
      KeyTable(table, ids[i], table);
    }
  }

  // ---------------------------------------------------------------------
  // The records the handlers build. A spread `{...a, ...b}` is the map
  // union a + b: on a shared key the later object wins.

  /** PUT /user/profile: the existing fields, overridden by the update's,
      with `id` forced to the caller and `updated_at` set to now. */
  function MergeProfile(existing: Fields, updates: Fields, userId: string, now: int): (r: Fields)
    ensures r.Keys == existing.Keys + updates.Keys + {"id", "updated_at"}
    ensures r["id"] == Str(userId) && r["updated_at"] == Num(now)
    ensures forall k :: k in updates && k != "id" && k != "updated_at" ==> r[k] == updates[k]
    ensures forall k :: k in existing && k !in updates && k != "id" && k != "updated_at" ==> r[k] == existing[k]
  {
    existing + updates + map["id" := Str(userId), "updated_at" := Num(now)]
  }

  /** POST /appointments: the generated id and the caller as patient, then
      the client's fields, then `status: 'scheduled'` and `created_at`, so
      the client can override the id fields but never the status. */
  function AppointmentRecord(appointmentId: string, userId: string, data: Fields, now: int): (r: Fields)
    ensures r.Keys == data.Keys + {"id", "patient_id", "status", "created_at"}
    ensures r["status"] == Str("scheduled") && r["created_at"] == Num(now)
    ensures r["id"] == if "id" in data then data["id"] else Str(appointmentId)
    ensures r["patient_id"] == if "patient_id" in data then data["patient_id"] else Str(userId)
    ensures forall k :: k in data && k != "status" && k != "created_at" ==> r[k] == data[k]
  {
    map["id" := Str(appointmentId), "patient_id" := Str(userId)] + data
      + map["status" := Str("scheduled"), "created_at" := Num(now)]
  }

  /** POST /progress: id and user first, the client's fields, then `date`. */
  function ProgressRecord(progressId: string, userId: string, data: Fields, now: int): (r: Fields)
    ensures r.Keys == data.Keys + {"id", "user_id", "date"}
    ensures r["date"] == Num(now) && HasDate(r)
    ensures r["id"] == if "id" in data then data["id"] else Str(progressId)
    ensures r["user_id"] == if "user_id" in data then data["user_id"] else Str(userId)
    ensures forall k :: k in data && k != "date" ==> r[k] == data[k]
  {
    map["id" := Str(progressId), "user_id" := Str(userId)] + data + map["date" := Num(now)]
  }

  /** `prakriti?.dominant_dosha || 'balanced'`. */
  function StoredDosha(kv: map<string, Stored>, userId: string): string {
    var key := Key(PrakritiTable, userId);
    if key in kv && kv[key].AssessmentResult? && kv[key].result.dominantDosha != "" then kv[key].result.dominantDosha
    else "balanced"
  }

  /** `new Date(x.date).getTime()` of a stored progress record. */
  function DateOf(v: Stored): int {
    if v.Record? && HasDate(v.fields) then v.fields["date"].n else 0
  }

  /** The comparator `(a, b) => date(b) - date(a)`: newest first. */
  function NewestFirst(records: seq<Stored>): seq<Stored> {
    SortAsc(records, (v: Stored) => -DateOf(v))
  }

  lemma NewestFirstSpec(records: seq<Stored>)
    ensures multiset(NewestFirst(records)) == multiset(records)
    ensures forall i, j :: 0 <= i < j < |records| ==> DateOf(NewestFirst(records)[i]) >= DateOf(NewestFirst(records)[j])
  {
    var key := (v: Stored) => -DateOf(v);
    var r := NewestFirst(records);
    assert SortedBy(r, key);
    forall i, j | 0 <= i < j < |records|
      ensures DateOf(r[i]) >= DateOf(r[j])
    {
      assert key(r[i]) <= key(r[j]);
    }
  }

  // ---------------------------------------------------------------------

  class Server {
    var kv: map<string, Stored>

    ghost predicate Valid()
      reads this
    {
      WellFormed(kv)
    }

    constructor ()
      ensures Valid() && kv == map[]
    {
      kv := map[];
    }

    /** GET /user/profile: the stored profile, or `{id, role: 'patient'}`. */
    function GetProfile(userId: string): (profile: Stored)
      reads this
      requires Valid()
      ensures profile.Record?
      ensures Key(UserTable, userId) !in kv ==> profile.fields == map["id" := Str(userId), "role" := Str("patient")]
      ensures Key(UserTable, userId) in kv ==> profile == kv[Key(UserTable, userId)]
    {
      var key := Key(UserTable, userId);
      if key in kv then
        KeyTable(UserTable, userId, UserTable);
        kv[key]
      else Record(map["id" := Str(userId), "role" := Str("patient")])
    }

    /** GET /prakriti/:userId: the stored assessment of that user, or null. */
    function GetPrakriti(userId: string): (assessment: Option<Scoring.Assessment>)
      reads this
      requires Valid()
      ensures assessment.Some? <==> Key(PrakritiTable, userId) in kv
      ensures assessment.Some? ==> kv[Key(PrakritiTable, userId)] == AssessmentResult(assessment.value)
    {
      var key := Key(PrakritiTable, userId);
      if key in kv then
        TableKinds();
        KeyTable(PrakritiTable, userId, PrakritiTable);
        Some(kv[key].result)
      else None
    }

    /** GET /diet-plan/:userId: the stored plan record of that user, or null. */
    function GetDietPlan(userId: string): (planData: Option<Stored>)
      reads this
      requires Valid()
      ensures planData.Some? <==> Key(DietPlanTable, userId) in kv
      ensures planData.Some? ==> planData.value == kv[Key(DietPlanTable, userId)] && planData.value.PlanData?
    {
      var key := Key(DietPlanTable, userId);
      if key in kv then
        TableKinds();
        KeyTable(DietPlanTable, userId, DietPlanTable);
        Some(kv[key])
      else None
    }

    /** PUT /user/profile. */
    method UpdateProfile(userId: string, updates: Fields, now: int) returns (profile: Fields)
      requires Valid()
      modifies this
      ensures Valid()
      ensures profile == MergeProfile(FieldsAt(old(kv), Key(UserTable, userId)), updates, userId, now)
      ensures kv == old(kv)[Key(UserTable, userId) := Record(profile)]
    {
      TableKinds();
      var key := Key(UserTable, userId);
      var existing := FieldsAt(kv, key);
      profile := MergeProfile(existing, updates, userId, now);
      WriteKeepsWellFormed(kv, UserTable, userId, Record(profile));
      kv := kv[key := Record(profile)];
    }

    /** POST /prakriti/assess: tally, classify, store under the caller. */
    method AssessPrakriti(userId: string, answers: seq<Scoring.Answer>, now: int) returns (result: Scoring.Assessment)
      requires Valid()
      modifies this
      ensures Valid()
      ensures result == Scoring.AssessmentOf(userId, answers, now)
      ensures kv == old(kv)[Key(PrakritiTable, userId) := AssessmentResult(result)]
    {
      TableKinds();
      var scores := Scoring.Tally(answers);
      result := Scoring.AssessmentFrom(userId, scores, now);
      WriteKeepsWellFormed(kv, PrakritiTable, userId, AssessmentResult(result));
      kv := kv[Key(PrakritiTable, userId) := AssessmentResult(result)];
    }

    /** POST /diet-plan/generate: the base plan for the stored dominant
      dosha, or for 'balanced' (which is vata's) when none is stored. */
    method GenerateDietPlan(userId: string, preferences: Json, goals: Json, restrictions: Json, now: int)
      returns (planData: Stored)
      requires Valid()
      modifies this
      ensures Valid()
      ensures planData == PlanData(userId, Knowledge.DietPlanFor(StoredDosha(old(kv), userId)), now, preferences, goals, restrictions)
      ensures kv == old(kv)[Key(DietPlanTable, userId) := planData]
    {
      TableKinds();
      var dosha := StoredDosha(kv, userId);
      var plan := Knowledge.GenerateDietPlan(dosha, preferences, goals, restrictions);
      planData := PlanData(userId, plan, now, preferences, goals, restrictions);
      WriteKeepsWellFormed(kv, DietPlanTable, userId, planData);
      kv := kv[Key(DietPlanTable, userId) := planData];
    }

    /** POST /appointments: store the record under its id, then append the
      id to the caller's appointment list. */
    method BookAppointment(userId: string, appointmentId: string, data: Fields, now: int) returns (appointment: Fields)
      requires Valid()
      modifies this
      ensures Valid()
      ensures appointment == AppointmentRecord(appointmentId, userId, data, now)
      ensures kv == old(kv)[Key(AppointmentTable, appointmentId) := Record(appointment)]
                           [Key(AppointmentListTable, userId) := IdList(IdsAt(old(kv), Key(AppointmentListTable, userId)) + [appointmentId])]
    {
      TableKinds();
      appointment := AppointmentRecord(appointmentId, userId, data, now);
      WriteKeepsWellFormed(kv, AppointmentTable, appointmentId, Record(appointment));
      kv := kv[Key(AppointmentTable, appointmentId) := Record(appointment)];
      var listKey := Key(AppointmentListTable, userId);
      KeysOfTwoTables(AppointmentTable, AppointmentListTable, appointmentId, userId);
      var userAppointments := IdsAt(kv, listKey);
      userAppointments := userAppointments + [appointmentId];
      WriteKeepsWellFormed(kv, AppointmentListTable, userId, IdList(userAppointments));
      kv := kv[listKey := IdList(userAppointments)];
    }

    /** GET /appointments/:userId. */
    method GetAppointments(userId: string) returns (appointments: seq<Stored>)
      requires Valid()
      ensures appointments == ResolveIds(kv, AppointmentTable, IdsAt(kv, Key(AppointmentListTable, userId)))
      ensures forall a :: a in appointments ==> a.Record?
    {
      var ids := IdsAt(kv, Key(AppointmentListTable, userId));
      appointments := [];
      for i := 0 to |ids|
        invariant appointments == ResolveIds(kv, AppointmentTable, ids[..i])
      {
        assert ids[..i + 1][..i] == ids[..i];
        var key := Key(AppointmentTable, ids[i]);
        if key in kv {
          appointments := appointments + [kv[key]];
        }
      }
      assert ids[..|ids|] == ids;
      ResolveIdsInTable(kv, AppointmentTable, ids);
    }

    /** POST /progress: store the entry under its id, append the id to the
      caller's progress list. */
    method AddProgress(userId: string, progressId: string, data: Fields, now: int) returns (progress: Fields)
      requires Valid()
      modifies this
      ensures Valid()
      ensures progress == ProgressRecord(progressId, userId, data, now)
      ensures kv == old(kv)[Key(ProgressTable, progressId) := Record(progress)]
                           [Key(ProgressListTable, userId) := IdList(IdsAt(old(kv), Key(ProgressListTable, userId)) + [progressId])]
    {
      TableKinds();
      progress := ProgressRecord(progressId, userId, data, now);
      WriteKeepsWellFormed(kv, ProgressTable, progressId, Record(progress));
      kv := kv[Key(ProgressTable, progressId) := Record(progress)];
      var listKey := Key(ProgressListTable, userId);
      KeysOfTwoTables(ProgressTable, ProgressListTable, progressId, userId);
      var userProgress := IdsAt(kv, listKey);
      userProgress := userProgress + [progressId];
      WriteKeepsWellFormed(kv, ProgressListTable, userId, IdList(userProgress));
      kv := kv[listKey := IdList(userProgress)];
    }

    /** GET /progress/:userId: the resolved entries, newest first. */
    method GetProgress(userId: string) returns (progress: seq<Stored>)
      requires Valid()
      ensures progress == NewestFirst(ResolveIds(kv, ProgressTable, IdsAt(kv, Key(ProgressListTable, userId))))
      ensures forall p :: p in progress ==> p.Record? && HasDate(p.fields)
      ensures forall i, j :: 0 <= i < j < |progress| ==> DateOf(progress[i]) >= DateOf(progress[j])
    {
      var ids := IdsAt(kv, Key(ProgressListTable, userId));
      var progressData := [];
      for i := 0 to |ids|
        invariant progressData == ResolveIds(kv, ProgressTable, ids[..i])
      {
        assert ids[..i + 1][..i] == ids[..i];
        var key := Key(ProgressTable, ids[i]);
        if key in kv {
          progressData := progressData + [kv[key]];
        }
      }
      assert ids[..|ids|] == ids;
      progress := NewestFirst(progressData);
      ResolveIdsInTable(kv, ProgressTable, ids);
      NewestFirstSpec(progressData);
      forall p | p in progress
        ensures p.Record? && HasDate(p.fields)
      {
        SortAscMembers(progressData, (v: Stored) => -DateOf(v), p);
      }
    }
  }

  /** Booking appends exactly one id at the end of the caller's list and
      the new record carries status 'scheduled' whatever the client sent. */
  lemma BookingAppends(kv: map<string, Stored>, userId: string, appointmentId: string, data: Fields, now: int)
    ensures var apt := AppointmentRecord(appointmentId, userId, data, now);
      var kv' := kv[Key(AppointmentTable, appointmentId) := Record(apt)]
                   [Key(AppointmentListTable, userId) := IdList(IdsAt(kv, Key(AppointmentListTable, userId)) + [appointmentId])];
      && IdsAt(kv', Key(AppointmentListTable, userId)) == IdsAt(kv, Key(AppointmentListTable, userId)) + [appointmentId]
      && kv'[Key(AppointmentTable, appointmentId)] == Record(apt) && apt["status"] == Str("scheduled")
      && forall k :: k in kv && k != Key(AppointmentTable, appointmentId) && k != Key(AppointmentListTable, userId) ==> kv'[k] == kv[k]
  {
    KeysOfTwoTables(AppointmentTable, AppointmentListTable, appointmentId, userId);
  }

  /** A diet plan generated for a user is what that user's plan read-back
      returns, and the stored assessment is left as it was. */
  lemma GeneratedPlanIsReadBack(s: Server, userId: string, preferences: Json, goals: Json, restrictions: Json, now: int)
    requires s.Valid()
    ensures var planData := PlanData(userId, Knowledge.DietPlanFor(StoredDosha(s.kv, userId)), now, preferences, goals, restrictions);
      var kv' := s.kv[Key(DietPlanTable, userId) := planData];
      && WellFormed(kv')
      && Key(DietPlanTable, userId) in kv' && kv'[Key(DietPlanTable, userId)] == planData
      && StoredDosha(kv', userId) == StoredDosha(s.kv, userId)
  {
    var planData := PlanData(userId, Knowledge.DietPlanFor(StoredDosha(s.kv, userId)), now, preferences, goals, restrictions);
    TableKinds();
    WriteKeepsWellFormed(s.kv, DietPlanTable, userId, planData);
    KeysOfTwoTables(DietPlanTable, PrakritiTable, userId, userId);
  }

  /** With no stored assessment the plan generated is vata's. */
  lemma NoAssessmentGivesVataPlan(kv: map<string, Stored>, userId: string)
    requires Key(PrakritiTable, userId) !in kv
    ensures Knowledge.DietPlanFor(StoredDosha(kv, userId)) == Knowledge.DietPlanTable(Knowledge.Vata)
  {
  }
}

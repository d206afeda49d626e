/**
 * Accounts: the stored daily calorie target of a user at registration and
 * on a profile update. An update may only name whitelisted fields; it copies
 * the given values onto the user and recomputes the target when a field the
 * target depends on was named.
 */
module Accounts {

  import opened Wrappers
  import opened Calories

  /** A value of the request body; each updatable field takes one kind. */
  datatype FieldValue =
    | Text(text: string)
    | Number(number: real)
    | GenderValue(gender: Gender)
    | ActivityValue(level: ActivityLevel)
    | GoalValue(goal: Goal)

  /** The fields a profile update may name. */
  const AllowedUpdates: set<string> := {"name", "age", "weight", "height", "activityLevel", "goal", "gender"}

  /** The fields the daily calorie target is computed from. */
  const TargetFields: set<string> := {"weight", "height", "age", "activityLevel", "goal", "gender"}

  /** The stored user record; `gender` is optional in the model of the user. */
  datatype Profile = Profile(
    name: string,
    email: string,
    password: string,
    age: real,
    weight: real,
    height: real,
    gender: Option<Gender>,
    activityLevel: ActivityLevel,
    dailyCalorieTarget: int,
    goal: Goal)

  /** `user.gender || 'male'`: a user without a gender is treated as male. */
  function GenderOrMale(gender: Option<Gender>): (g: Gender)
    ensures gender.Some? ==> g == gender.value
    ensures gender.None? ==> g == Male
  {
    if gender.Some? then gender.value else Male
  }

  /** The target calculateDailyCalorieTarget gives for the profile's own figures. */
  function TargetOf(p: Profile): int
  {
    DailyCalorieTarget(p.weight, p.height, p.age, GenderOrMale(p.gender), p.activityLevel, p.goal)
  }

  /** The stored target agrees with the stored figures. */
  predicate TargetConsistent(p: Profile)
  {
    p.dailyCalorieTarget == TargetOf(p)
  }

  // ---------------------------------------------------------------------
  // Registration

  datatype RegisterFailure = EmailAlreadyExists

  /**
   * register after its lookup: `emailTaken` is whether a user with the email
   * exists. The gender defaults to male and the stored target is computed
   * from the given figures.
   */
  function Register(name: string, email: string, password: string, age: real, weight: real, height: real,
                    gender: Option<Gender>, activityLevel: ActivityLevel, goal: Goal, emailTaken: bool)
    : (r: Result<Profile, RegisterFailure>)
    ensures r.Err? <==> emailTaken
    ensures r.Ok? ==> TargetConsistent(r.value)
    ensures r.Ok? ==> r.value.gender == Some(GenderOrMale(gender))
    ensures r.Ok? ==> r.value.name == name && r.value.email == email && r.value.password == password
    ensures r.Ok? ==> r.value.age == age && r.value.weight == weight && r.value.height == height
    ensures r.Ok? ==> r.value.activityLevel == activityLevel && r.value.goal == goal
  {
    if emailTaken then Err(EmailAlreadyExists)
    else
      var g := GenderOrMale(gender);
      var target := DailyCalorieTarget(weight, height, age, g, activityLevel, goal);
      Ok(Profile(name, email, password, age, weight, height, Some(g), activityLevel, target, goal))
  }

  /** A registration without a gender stores the same record as one that says male. */
  lemma RegisterDefaultsToMale(name: string, email: string, password: string, age: real, weight: real,
                               height: real, activityLevel: ActivityLevel, goal: Goal, emailTaken: bool)
    ensures Register(name, email, password, age, weight, height, None, activityLevel, goal, emailTaken)
            == Register(name, email, password, age, weight, height, Some(Male), activityLevel, goal, emailTaken)
  {
  }

  // ---------------------------------------------------------------------
  // Profile update as a function of the stored record

  /** `requestedUpdates.every(update => allowedUpdates.includes(update))` */
  predicate IsValidOperation(updates: map<string, FieldValue>): (r: bool)
    ensures r <==> updates.Keys <= AllowedUpdates
    ensures r ==> "email" !in updates && "password" !in updates && "dailyCalorieTarget" !in updates
  {
    forall k :: k in updates ==> k in AllowedUpdates
  }

  /** `requestedUpdates.some(field => [...].includes(field))` */
  predicate TouchesTarget(updates: map<string, FieldValue>): (r: bool)
    ensures r <==> updates.Keys * TargetFields != {}
    ensures !r && IsValidOperation(updates) ==> updates.Keys <= {"name"}
  {
    var named := updates.Keys * TargetFields;
    assert (exists k :: k in updates && k in TargetFields) <==> named != {} by {
      if named != {} {
        var k :| k in named;
        assert k in updates && k in TargetFields;
      }
      if exists k :: k in updates && k in TargetFields {
        var k :| k in updates && k in TargetFields;
        assert k in named;
      }
    }
    exists k :: k in updates && k in TargetFields
  }

  /** The value has the kind of the named field. */
  predicate Fits(key: string, v: FieldValue)
  {
    if key == "name" then v.Text?
    else if key == "age" || key == "weight" || key == "height" then v.Number?
    else if key == "gender" then v.GenderValue?
    else if key == "activityLevel" then v.ActivityValue?
    else if key == "goal" then v.GoalValue?
    else false
  }

  /** Every named field is given a value of its kind. */
  predicate WellTyped(updates: map<string, FieldValue>)
  {
    forall k :: k in updates ==> Fits(k, updates[k])
  }

  /** One field of the record, as a request value; absent for a missing gender and for other keys. */
  function FieldOf(p: Profile, key: string): Option<FieldValue>
  {
    if key == "name" then Some(Text(p.name))
    else if key == "age" then Some(Number(p.age))
    else if key == "weight" then Some(Number(p.weight))
    else if key == "height" then Some(Number(p.height))
    else if key == "gender" then (if p.gender.Some? then Some(GenderValue(p.gender.value)) else None)
    else if key == "activityLevel" then Some(ActivityValue(p.activityLevel))
    else if key == "goal" then Some(GoalValue(p.goal))
    else None
  }

  /** `(user as any)[key] = value` for one allowed key and a value of its kind. */
  function Assigned(p: Profile, key: string, v: FieldValue): (q: Profile)
    requires key in AllowedUpdates && Fits(key, v)
    ensures FieldOf(q, key) == Some(v)
    ensures forall other :: other != key ==> FieldOf(q, other) == FieldOf(p, other)
    ensures q.email == p.email && q.password == p.password && q.dailyCalorieTarget == p.dailyCalorieTarget
  {
    if key == "name" then p.(name := v.text)
    else if key == "age" then p.(age := v.number)
    else if key == "weight" then p.(weight := v.number)
    else if key == "height" then p.(height := v.number)
    else if key == "gender" then p.(gender := Some(v.gender))
    else if key == "activityLevel" then p.(activityLevel := v.level)
    else p.(goal := v.goal)
  }

  /** A record is determined by its updatable fields and the three the update never writes. */
  lemma SameFieldsSameProfile(p: Profile, q: Profile)
    requires forall key :: key in AllowedUpdates ==> FieldOf(p, key) == FieldOf(q, key)
    requires p.email == q.email && p.password == q.password && p.dailyCalorieTarget == q.dailyCalorieTarget
    ensures p == q
  {
    assert FieldOf(p, "name") == FieldOf(q, "name");
    assert FieldOf(p, "age") == FieldOf(q, "age");
    assert FieldOf(p, "weight") == FieldOf(q, "weight");
    assert FieldOf(p, "height") == FieldOf(q, "height");
    assert FieldOf(p, "gender") == FieldOf(q, "gender");
    assert FieldOf(p, "activityLevel") == FieldOf(q, "activityLevel");
    assert FieldOf(p, "goal") == FieldOf(q, "goal");
  }

  /** The record after every requested value is copied onto it. */
  ghost function Copied(p: Profile, updates: map<string, FieldValue>): (q: Profile)
    requires IsValidOperation(updates) && WellTyped(updates)
    ensures forall key :: key in updates ==> FieldOf(q, key) == Some(updates[key])
    ensures forall key :: key !in updates ==> FieldOf(q, key) == FieldOf(p, key)
    ensures q.email == p.email && q.password == p.password && q.dailyCalorieTarget == p.dailyCalorieTarget
    decreases |updates|
  {
    if updates == map[] then p
    else
      var key := PickKey(updates);
      var rest := updates - {key};
      assert |rest| < |updates| by { assert key in updates; }
      Assigned(Copied(p, rest), key, updates[key])
  }

  /** Some key of a non-empty request. */
  ghost function PickKey(updates: map<string, FieldValue>): (key: string)
    requires updates != map[]
    ensures key in updates
  {
    var key :| key in updates; key
  }

  /**
   * updateProfile's effect on a stored record: the requested fields take
   * the requested values and, when a target field was named, the target is
   * recomputed from the updated record.
   */
  ghost function UpdatedProfile(p: Profile, updates: map<string, FieldValue>): Profile
    requires IsValidOperation(updates) && WellTyped(updates)
  {
    var q := Copied(p, updates);
    if TouchesTarget(updates) then q.(dailyCalorieTarget := TargetOf(q)) else q
  }

  /** Each requested field takes its value, every other field keeps its own, email and password never change. */
  lemma UpdateTakesRequestedValues(p: Profile, updates: map<string, FieldValue>)
    requires IsValidOperation(updates) && WellTyped(updates)
    ensures forall key :: key in updates ==> FieldOf(UpdatedProfile(p, updates), key) == Some(updates[key])
    ensures forall key :: key !in updates ==> FieldOf(UpdatedProfile(p, updates), key) == FieldOf(p, key)
    ensures UpdatedProfile(p, updates).email == p.email && UpdatedProfile(p, updates).password == p.password
  {
    var q := Copied(p, updates);
    forall key | key in updates
      ensures FieldOf(UpdatedProfile(p, updates), key) == Some(updates[key])
    {
      assert FieldOf(UpdatedProfile(p, updates), key) == FieldOf(q, key);
    }
    forall key | key !in updates
      ensures FieldOf(UpdatedProfile(p, updates), key) == FieldOf(p, key)
    {
      assert FieldOf(UpdatedProfile(p, updates), key) == FieldOf(q, key);
    }
  }

  /** An update naming a target field leaves a target that agrees with the updated figures. */
  lemma TargetFieldUpdateRecomputes(p: Profile, updates: map<string, FieldValue>)
    requires IsValidOperation(updates) && WellTyped(updates)
    requires TouchesTarget(updates)
    ensures TargetConsistent(UpdatedProfile(p, updates))
  {
  }

  /** An update naming no target field (only the name) keeps the stored target. */
  lemma NameOnlyUpdateKeepsTarget(p: Profile, updates: map<string, FieldValue>)
    requires IsValidOperation(updates) && WellTyped(updates)
    requires !TouchesTarget(updates)
    ensures UpdatedProfile(p, updates).dailyCalorieTarget == p.dailyCalorieTarget
    ensures forall key :: key in updates ==> key == "name"
  {
  }

  /** A target that agrees with the figures keeps agreeing after any accepted update. */
  lemma UpdateKeepsTargetConsistent(p: Profile, updates: map<string, FieldValue>)
    requires IsValidOperation(updates) && WellTyped(updates)
    requires TargetConsistent(p)
    ensures TargetConsistent(UpdatedProfile(p, updates))
  {
    if !TouchesTarget(updates) {
      var q := UpdatedProfile(p, updates);
      UpdateTakesRequestedValues(p, updates);
      assert forall key :: key in updates ==> key == "name";
      assert FieldOf(q, "age") == FieldOf(p, "age");
      assert FieldOf(q, "weight") == FieldOf(p, "weight");
      assert FieldOf(q, "height") == FieldOf(p, "height");
      assert FieldOf(q, "gender") == FieldOf(p, "gender");
      assert FieldOf(q, "activityLevel") == FieldOf(p, "activityLevel");
      assert FieldOf(q, "goal") == FieldOf(p, "goal");
      assert TargetOf(q) == TargetOf(p);
    }
  }

  /** Sending the same update twice stores the same record as sending it once. */
  lemma UpdateIdempotent(p: Profile, updates: map<string, FieldValue>)
    requires IsValidOperation(updates) && WellTyped(updates)
    ensures UpdatedProfile(UpdatedProfile(p, updates), updates) == UpdatedProfile(p, updates)
  {
    var once := UpdatedProfile(p, updates);
    var twice := UpdatedProfile(once, updates);
    UpdateTakesRequestedValues(p, updates);
    UpdateTakesRequestedValues(once, updates);
    forall key | key in AllowedUpdates
      ensures FieldOf(twice, key) == FieldOf(once, key)
    {
    }
    if TouchesTarget(updates) {
      SameFieldsSameProfile(twice.(dailyCalorieTarget := once.dailyCalorieTarget), once);
      assert TargetOf(twice) == TargetOf(once);
    } else {
      SameFieldsSameProfile(twice, once);
    }
  }

  /** A user who registered and then updated the profile has a target that agrees with the figures. */
  lemma RegisteredThenUpdatedIsConsistent(name: string, email: string, password: string, age: real, weight: real,
                                          height: real, gender: Option<Gender>, activityLevel: ActivityLevel,
                                          goal: Goal, updates: map<string, FieldValue>)
    requires IsValidOperation(updates) && WellTyped(updates)
    ensures var r := Register(name, email, password, age, weight, height, gender, activityLevel, goal, false);
            r.Ok? && TargetConsistent(UpdatedProfile(r.value, updates))
  {
    var r := Register(name, email, password, age, weight, height, gender, activityLevel, goal, false);
    UpdateKeepsTargetConsistent(r.value, updates);
  }

  // ---------------------------------------------------------------------
  // The user document and the handler

  /** The user document that updateProfile loads, changes and saves. */
  class User {
    var name: string
    var email: string
    var password: string
    var age: real
    var weight: real
    var height: real
    var gender: Option<Gender>
    var activityLevel: ActivityLevel
    var dailyCalorieTarget: int
    var goal: Goal

    constructor (p: Profile)
      ensures Snapshot() == p
    {
      name, email, password := p.name, p.email, p.password;
      age, weight, height := p.age, p.weight, p.height;
      gender, activityLevel, dailyCalorieTarget, goal := p.gender, p.activityLevel, p.dailyCalorieTarget, p.goal;
    }

    function Snapshot(): Profile
      reads this
    {
      Profile(name, email, password, age, weight, height, gender, activityLevel, dailyCalorieTarget, goal)
    }

    /** `(user as any)[key] = value` */
    method Set(key: string, v: FieldValue)
      requires key in AllowedUpdates && Fits(key, v)
      modifies this
      ensures Snapshot() == Assigned(old(Snapshot()), key, v)
    {
      if key == "name" {
        name := v.text;
      } else if key == "age" {
        age := v.number;
      } else if key == "weight" {
        weight := v.number;
      } else if key == "height" {
        height := v.number;
      } else if key == "gender" {
        gender := Some(v.gender);
      } else if key == "activityLevel" {
        activityLevel := v.level;
      } else {
        goal := v.goal;
      }
    }

    /** The forEach that copies every requested value, then the conditional recomputation of the target. */
    method ApplyUpdates(updates: map<string, FieldValue>)
      requires IsValidOperation(updates) && WellTyped(updates)
      modifies this
      ensures Snapshot() == UpdatedProfile(old(Snapshot()), updates)
    {
      ghost var start := Snapshot();
      var remaining := updates.Keys;
      while remaining != {}
        invariant remaining <= updates.Keys
        invariant forall key :: key in updates && key !in remaining ==> FieldOf(Snapshot(), key) == Some(updates[key])
        invariant forall key :: (key !in updates || key in remaining) ==> FieldOf(Snapshot(), key) == FieldOf(start, key)
        invariant email == start.email && password == start.password
        invariant dailyCalorieTarget == start.dailyCalorieTarget
        decreases remaining
      {
        var key :| key in remaining;
        Set(key, updates[key]);
        remaining := remaining - {key};
      }
      ghost var copied := Copied(start, updates);
      forall key | key in AllowedUpdates
        ensures FieldOf(Snapshot(), key) == FieldOf(copied, key)
      {
      }
      SameFieldsSameProfile(Snapshot(), copied);

      if TouchesTarget(updates) {
        dailyCalorieTarget := DailyCalorieTarget(weight, height, age, GenderOrMale(gender), activityLevel, goal);
      }
    }
  }

  /**
   * SaveFailed stands for the error save() raises when a value cannot be
   * cast to its field's type; the stored document is then left as it was.
   */
  datatype UpdateOutcome = Updated | InvalidUpdates | UserNotFound | SaveFailed

  /**
   * updateProfile after its lookup: `user` is the document found by id, or
   * null. The whitelist is checked before the lookup result.
   */
  method UpdateProfile(user: User?, updates: map<string, FieldValue>) returns (outcome: UpdateOutcome)
    modifies user
    ensures outcome == InvalidUpdates <==> !IsValidOperation(updates)
    ensures outcome == UserNotFound <==> IsValidOperation(updates) && user == null
    ensures outcome == SaveFailed <==> IsValidOperation(updates) && user != null && !WellTyped(updates)
    ensures outcome != Updated && user != null ==> user.Snapshot() == old(user.Snapshot())
    ensures outcome == Updated ==>
              user != null && IsValidOperation(updates) && WellTyped(updates)
              && user.Snapshot() == UpdatedProfile(old(user.Snapshot()), updates)
  {
    if !IsValidOperation(updates) {
      return InvalidUpdates;
    }
    if user == null {
      return UserNotFound;
    }
    if !WellTyped(updates) {
      return SaveFailed;
    }
    user.ApplyUpdates(updates);
    outcome := Updated;
  }
}

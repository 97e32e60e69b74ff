/** The statistics dashboard: six frequency tables folded over the fetched
    member list, and the fetch that loads that list. */
module Dashboard {
  import opened Records

  // ---------------------------------------------------------------------
  // Reference definitions the folds are proved against
  // ---------------------------------------------------------------------

  /** The number of members whose `key` field is `v`. */
  function Count(ms: seq<Record>, key: string, v: Option<string>): (n: nat)
    ensures n <= |ms|
    decreases |ms|
  {
    if ms == [] then 0
    else Count(ms[..|ms| - 1], key, v) + (if Get(ms[|ms| - 1], key) == v then 1 else 0)
  }

  /** The distinct values the `key` field takes across the members. */
  function Values(ms: seq<Record>, key: string): (vs: set<Option<string>>)
    decreases |ms|
  {
    if ms == [] then {} else Values(ms[..|ms| - 1], key) + {Get(ms[|ms| - 1], key)}
  }

  /** A value occurs among the members exactly when some member holds it. */
  lemma {:induction false} ValuesMeaning(ms: seq<Record>, key: string, v: Option<string>)
    ensures v in Values(ms, key) <==> exists i :: 0 <= i < |ms| && Get(ms[i], key) == v
    decreases |ms|
  {
    if ms != [] {
      var p := ms[..|ms| - 1];
      ValuesMeaning(p, key, v);
      if v in Values(p, key) {
        var i :| 0 <= i < |p| && Get(p[i], key) == v;
        assert ms[i] == p[i];
      }
      if exists i :: 0 <= i < |ms| && Get(ms[i], key) == v {
        var i :| 0 <= i < |ms| && Get(ms[i], key) == v;
        if i < |p| {
          assert p[i] == ms[i];
        }
      }
    }
  }

  /** A value is counted at least once exactly when it occurs. */
  lemma {:induction false} CountPositive(ms: seq<Record>, key: string, v: Option<string>)
    ensures Count(ms, key, v) >= 1 <==> v in Values(ms, key)
    decreases |ms|
  {
    if ms != [] {
      CountPositive(ms[..|ms| - 1], key, v);
    }
  }

  /** The members holding `v` and the members not holding it make up the whole list. */
  lemma {:induction false} CountSplit(ms: seq<Record>, key: string, v: Option<string>)
    ensures Count(ms, key, v) + CountOther(ms, key, v) == |ms|
    decreases |ms|
  {
    if ms != [] {
      CountSplit(ms[..|ms| - 1], key, v);
    }
  }

  /** The number of members whose `key` field is anything other than `v`. */
  function CountOther(ms: seq<Record>, key: string, v: Option<string>): (n: nat)
    ensures n <= |ms|
    decreases |ms|
  {
    if ms == [] then 0
    else CountOther(ms[..|ms| - 1], key, v) + (if Get(ms[|ms| - 1], key) != v then 1 else 0)
  }

  /** Some key of a non-empty table. */
  ghost function Pick(t: map<Option<string>, nat>): (k: Option<string>)
    requires |t| != 0
    ensures k in t
  {
    var k :| k in t; k
  }

  /** The sum of the counts stored in a frequency table. */
  ghost function SumCounts(t: map<Option<string>, nat>): nat
    decreases |t|
  {
    if |t| == 0 then 0 else t[Pick(t)] + SumCounts(t - {Pick(t)})
  }

  lemma CardRemove(t: map<Option<string>, nat>, k: Option<string>)
    requires k in t
    ensures |t - {k}| == |t| - 1
  {
    assert (t - {k}).Keys == t.Keys - {k};
  }

  lemma {:induction false} SumCountsRemove(t: map<Option<string>, nat>, k: Option<string>)
    requires k in t
    ensures SumCounts(t) == t[k] + SumCounts(t - {k})
    decreases |t|
  {
    var j := Pick(t);
    if j != k {
      var tj, tk := t - {j}, t - {k};
      CardRemove(t, j);
      CardRemove(t, k);
      SumCountsRemove(tj, k);
      SumCountsRemove(tk, j);
      assert tj - {k} == tk - {j};
    }
  }

  /** `acc[k] = (acc[k] || 0) + 1` adds exactly one to the table's total. */
  lemma SumCountsBump(t: map<Option<string>, nat>, k: Option<string>)
    ensures SumCounts(t[k := (if k in t then t[k] else 0) + 1]) == SumCounts(t) + 1
  {
    var u := t[k := (if k in t then t[k] else 0) + 1];
    SumCountsRemove(u, k);
    if k in t {
      SumCountsRemove(t, k);
      assert u - {k} == t - {k};
    } else {
      assert u - {k} == t;
    }
  }

  // ---------------------------------------------------------------------
  // The folds
  // ---------------------------------------------------------------------

  /** The two-bucket fold of `genderStats` and `educationStats`: a member goes to `hit`
      when its `key` field is exactly `v`, and to `miss` otherwise (missing fields included). */
  method TwoWayStats(members: seq<Record>, key: string, v: string, hit: string, miss: string)
    returns (acc: map<string, nat>)
    requires hit != miss
    ensures acc.Keys == {hit, miss}
    ensures acc[hit] == Count(members, key, Some(v))
    ensures acc[miss] == CountOther(members, key, Some(v))
    ensures acc[hit] + acc[miss] == |members|
  {
    acc := map[hit := 0, miss := 0];
    var i := 0;
    while i < |members|
      invariant 0 <= i <= |members|
      invariant acc.Keys == {hit, miss}
      invariant acc[hit] == Count(members[..i], key, Some(v))
      invariant acc[miss] == CountOther(members[..i], key, Some(v))
    {
      var k := if Get(members[i], key) == Some(v) then hit else miss;
      acc := acc[k := acc[k] + 1];
      assert members[..i + 1][..i] == members[..i];
      i := i + 1;
    }
    assert members[..i] == members;
    CountSplit(members, key, Some(v));
  }

  /** `genderStats`: "male" counts the members whose gender is exactly "M", "female" all others. */
  method GenderStats(members: seq<Record>) returns (acc: map<string, nat>)
    ensures acc.Keys == {"male", "female"}
    ensures acc["male"] == Count(members, "gender", Some("M"))
    ensures acc["female"] == CountOther(members, "gender", Some("M"))
    ensures acc["male"] + acc["female"] == |members|
  {
    acc := TwoWayStats(members, "gender", "M", "male", "female");
  }

  /** `educationStats`: "bachelor" counts education exactly "bachelor", "master" all others. */
  method EducationStats(members: seq<Record>) returns (acc: map<string, nat>)
    ensures acc.Keys == {"bachelor", "master"}
    ensures acc["bachelor"] == Count(members, "education", Some("bachelor"))
    ensures acc["master"] == CountOther(members, "education", Some("bachelor"))
    ensures acc["bachelor"] + acc["master"] == |members|
  {
    acc := TwoWayStats(members, "education", "bachelor", "bachelor", "master");
  }

  /** The group-by fold of `interestStats`, `universityStats`, `yearStats` and `ageStats`:
      one key per distinct value, holding how many members have it. */
  method GroupCount(members: seq<Record>, key: string) returns (acc: map<Option<string>, nat>)
    ensures acc.Keys == Values(members, key)
    ensures forall v :: v in acc ==> acc[v] == Count(members, key, v) && acc[v] >= 1
    ensures SumCounts(acc) == |members|
  {
    acc := map[];
    var i := 0;
    while i < |members|
      invariant 0 <= i <= |members|
      invariant acc.Keys == Values(members[..i], key)
      invariant forall v :: v in acc ==> acc[v] == Count(members[..i], key, v)
      invariant SumCounts(acc) == i
    {
      var v := Get(members[i], key);
      SumCountsBump(acc, v);
      GroupStep(members, i, key, acc);
      acc := acc[v := (if v in acc then acc[v] else 0) + 1];
      i := i + 1;
    }
    assert members[..i] == members;
    forall v | v in acc
      ensures acc[v] >= 1
    {
      CountPositive(members, key, v);
    }
  }

  /** One step of the group-by fold keeps the table equal to the counts of the prefix. */
  lemma GroupStep(ms: seq<Record>, i: nat, key: string, acc: map<Option<string>, nat>)
    requires i < |ms|
    requires acc.Keys == Values(ms[..i], key)
    requires forall v :: v in acc ==> acc[v] == Count(ms[..i], key, v)
    ensures var v := Get(ms[i], key);
            var next := acc[v := (if v in acc then acc[v] else 0) + 1];
            next.Keys == Values(ms[..i + 1], key) &&
            forall w :: w in next ==> next[w] == Count(ms[..i + 1], key, w)
  {
    var v := Get(ms[i], key);
    PrefixStep(ms, i, key);
    if v !in acc {
      CountPositive(ms[..i], key, v);
    }
  }

  /** How Count and Values grow when the fold takes one more member. */
  lemma PrefixStep(ms: seq<Record>, i: nat, key: string)
    requires i < |ms|
    ensures Values(ms[..i + 1], key) == Values(ms[..i], key) + {Get(ms[i], key)}
    ensures forall w :: Count(ms[..i + 1], key, w) ==
                        Count(ms[..i], key, w) + (if Get(ms[i], key) == w then 1 else 0)
  {
    assert ms[..i + 1][..i] == ms[..i];
  }

  /** The six tables the dashboard charts. */
  datatype Stats = Stats(
    gender: map<string, nat>,
    education: map<string, nat>,
    interest: map<Option<string>, nat>,
    university: map<Option<string>, nat>,
    year: map<Option<string>, nat>,
    age: map<Option<string>, nat>)

  /** A group-by table of `key`: one entry per distinct value, holding how many members have
      it (so at least one), the entries summing to the number of members. */
  ghost predicate GroupTable(t: map<Option<string>, nat>, members: seq<Record>, key: string) {
    t.Keys == Values(members, key) &&
    (forall v :: v in t ==> t[v] == Count(members, key, v) && t[v] >= 1) &&
    SumCounts(t) == |members|
  }

  /** `s` holds the six tables the dashboard derives from `members`. */
  ghost predicate StatsOf(members: seq<Record>, s: Stats) {
    s.gender.Keys == {"male", "female"} &&
    s.gender["male"] == Count(members, "gender", Some("M")) &&
    s.gender["female"] == CountOther(members, "gender", Some("M")) &&
    s.gender["male"] + s.gender["female"] == |members| &&
    s.education.Keys == {"bachelor", "master"} &&
    s.education["bachelor"] == Count(members, "education", Some("bachelor")) &&
    s.education["master"] == CountOther(members, "education", Some("bachelor")) &&
    s.education["bachelor"] + s.education["master"] == |members| &&
    GroupTable(s.interest, members, "interest") &&
    GroupTable(s.university, members, "university") &&
    GroupTable(s.year, members, "year") &&
    GroupTable(s.age, members, "age")
  }

  method ComputeStats(members: seq<Record>) returns (s: Stats)
    ensures StatsOf(members, s)
  {
    var gender := GenderStats(members);
    var education := EducationStats(members);
    var interest := GroupCount(members, "interest");
    var university := GroupCount(members, "university");
    var year := GroupCount(members, "year");
    var age := GroupCount(members, "age");
    s := Stats(gender, education, interest, university, year, age);
  }

  // ---------------------------------------------------------------------
  // The view's state
  // ---------------------------------------------------------------------

  datatype Screen = Loading | ErrorPage(message: string) | Charts(stats: Stats)

  const FetchFailedMessage: string := "Failed to fetch members data."

  class DashboardView {
    var members: seq<Record>
    var loading: bool
    var error: Option<string>

    constructor ()
      ensures members == [] && loading && error == None
    {
      members, loading, error := [], true, None;
    }

    /** The fetch effect: store the list as fetched, or the error; loading ends either way. */
    method ReceiveMembers(reply: FetchReply)
      modifies this
      ensures !loading
      ensures reply.Fetched? ==> members == reply.data && error == old(error)
      ensures reply.HttpError? ==> members == old(members) && error == Some(FetchFailedMessage)
      ensures reply.Thrown? ==> members == old(members) && error == Some(reply.message)
    {
      match reply {
        case Fetched(data) => members := data;
        case HttpError => error := Some(FetchFailedMessage);
        case Thrown(message) => error := Some(message);
      }
      loading := false;
    }

    /** The render: loading first, then a truthy error, and only then the statistics. */
    method Render() returns (screen: Screen)
      ensures loading ==> screen == Loading
      ensures !loading && Truthy(error) ==> screen == ErrorPage(error.value)
      ensures !loading && !Truthy(error) ==> screen.Charts? && StatsOf(members, screen.stats)
    {
      if loading {
        return Loading;
      }
      if Truthy(error) {
        return ErrorPage(error.value);
      }
      var stats := ComputeStats(members);
      screen := Charts(stats);
    }
  }

  /** A failed fetch leaves the view showing the error with an empty member list. */
  method FailedFetch(message: string) returns (screen: Screen, members: seq<Record>)
    requires message != ""
    ensures screen == ErrorPage(message) && members == []
  {
    var view := new DashboardView();
    view.ReceiveMembers(Thrown(message));
    screen := view.Render();
    members := view.members;
  }
}

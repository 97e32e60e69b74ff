/** The member directory: the roster fetched from the record store with its
    sensitive fields stripped, the client-side filter over it, and the
    session user's editable profile draft. */
module Members {
  import opened Records

  // ---------------------------------------------------------------------
  // Sanitising the fetched roster
  // ---------------------------------------------------------------------

  /** The fields the roster must never hold. */
  const HiddenKeys: set<string> := {"id", "password"}

  /** `({ id, password, ...rest }) => rest` */
  function Sanitize(r: Record): (s: Record)
    ensures "id" !in s && "password" !in s
    ensures forall k :: k in r && k !in HiddenKeys ==> k in s && s[k] == r[k]
    ensures forall k :: k in s ==> k in r
  {
    r - HiddenKeys
  }

  /** `data.map(Sanitize)`: one sanitised record per fetched record, in order. */
  function SanitizeAll(data: seq<Record>): (ms: seq<Record>)
    ensures |ms| == |data|
    ensures forall i :: 0 <= i < |data| ==> ms[i] == Sanitize(data[i])
  {
    seq(|data|, i requires 0 <= i < |data| => Sanitize(data[i]))
  }

  // ---------------------------------------------------------------------
  // The profile draft
  // ---------------------------------------------------------------------

  /** The fields of the edit form, in the order the form shows them. */
  const DraftKeys: seq<string> := ["name", "username", "email", "id", "interest", "year", "university", "gender"]

  /** The draft seeded from the stored session: `field: session.field || ""` for every form field. */
  function SeedDraft(session: Record): (d: Record)
    ensures d.Keys == {"name", "username", "email", "id", "interest", "year", "university", "gender"}
    ensures forall k :: k in d && Truthy(Get(session, k)) ==> d[k] == session[k]
    ensures forall k :: k in d && !Truthy(Get(session, k)) ==> d[k] == Some("")
  {
    map k | k in DraftKeys :: Some(OrEmpty(Get(session, k)))
  }

  /** The guard of the save handler: `editedUser && editedUser.id`. */
  predicate CanSave(draft: Record)
    ensures CanSave(draft) <==> "id" in draft && draft["id"].Some? && draft["id"].value != ""
  {
    Truthy(Get(draft, "id"))
  }

  /** A freshly seeded draft can be saved exactly when the session carries a non-empty id;
      the seeded draft never carries the password. */
  lemma SeedDraftCanSave(session: Record)
    ensures CanSave(SeedDraft(session)) <==> Truthy(Get(session, "id"))
    ensures "password" !in SeedDraft(session)
  {
    var d := SeedDraft(session);
    assert "id" in d;
  }

  // ---------------------------------------------------------------------
  // The roster filter
  // ---------------------------------------------------------------------

  /** The four filter inputs of the view. */
  datatype Filters = Filters(searchTerm: string, gender: string, year: string, interest: string)

  const NoFilters: Filters := Filters("", "", "", "")

  /** `value?.toString().toLowerCase().includes(term.toLowerCase())`: null and undefined never match. */
  predicate FieldMatches(v: Option<string>, term: string)
    ensures term == "" ==> (FieldMatches(v, term) <==> v.Some?)
    ensures v.Some? && v.value == term ==> FieldMatches(v, term)
  {
    assert v.Some? && (term == "" || v.value == term) ==> OccursAt(Lower(v.value), Lower(term), 0);
    v.Some? && Includes(Lower(v.value), Lower(term))
  }

  /** The search clause: an empty term keeps everything, otherwise some field must match. */
  predicate MatchesSearch(m: Record, term: string)
    ensures m == map[] ==> (MatchesSearch(m, term) <==> term == "")
    ensures term != "" && MatchesSearch(m, term) ==> exists k | k in m :: m[k].Some?
  {
    term == "" || exists k | k in m :: FieldMatches(m[k], term)
  }

  /** The gender clause: case-insensitive equality. */
  predicate MatchesGender(m: Record, gender: string)
    ensures gender != "" && Get(m, "gender").None? ==> !MatchesGender(m, gender)
    ensures Get(m, "gender") == Some(gender) ==> MatchesGender(m, gender)
  {
    gender == "" || (Get(m, "gender").Some? && Lower(Get(m, "gender").value) == Lower(gender))
  }

  /** The year clause: `member.year?.toString() === filterYear`, without case folding. */
  predicate MatchesYear(m: Record, year: string)
    ensures year != "" && MatchesYear(m, year) ==> "year" in m && m["year"] == Some(year)
  {
    year == "" || Get(m, "year") == Some(year)
  }

  /** The interest clause: case-insensitive substring. */
  predicate MatchesInterest(m: Record, interest: string)
    ensures interest != "" && Get(m, "interest").None? ==> !MatchesInterest(m, interest)
    ensures Get(m, "interest") == Some(interest) ==> MatchesInterest(m, interest)
  {
    interest == "" || FieldMatches(Get(m, "interest"), interest)
  }

  /** The filter callback: the conjunction of the four clauses. */
  predicate Keep(m: Record, f: Filters)
    ensures f == NoFilters ==> Keep(m, f)
  {
    MatchesSearch(m, f.searchTerm) && MatchesGender(m, f.gender) &&
    MatchesYear(m, f.year) && MatchesInterest(m, f.interest)
  }

  /** `members.filter(Keep)`: every kept record appears as often as in the roster, every
      other record not at all. */
  function Filter(ms: seq<Record>, f: Filters): (r: seq<Record>)
    ensures |r| <= |ms|
    ensures forall x :: x in r ==> x in ms && Keep(x, f)
    ensures forall x :: x in ms && Keep(x, f) ==> x in r
    ensures forall x :: multiset(r)[x] == (if Keep(x, f) then multiset(ms)[x] else 0)
  {
    if ms == [] then []
    else
      assert ms == [ms[0]] + ms[1..];
      (if Keep(ms[0], f) then [ms[0]] else []) + Filter(ms[1..], f)
  }

  /** `a` is `b` with some elements dropped and the rest kept in order. */
  ghost predicate Sub(a: seq<Record>, b: seq<Record>)
    decreases |b|
  {
    a == [] || (b != [] && ((a[0] == b[0] && Sub(a[1..], b[1..])) || Sub(a, b[1..])))
  }

  lemma {:induction false} SubLength(a: seq<Record>, b: seq<Record>)
    requires Sub(a, b)
    ensures |a| <= |b|
    decreases |b|
  {
    if a != [] {
      if a[0] == b[0] && Sub(a[1..], b[1..]) {
        SubLength(a[1..], b[1..]);
      } else {
        SubLength(a, b[1..]);
      }
    }
  }

  /** The filtered roster is an order-preserving subsequence of the roster. */
  lemma {:induction false} FilterIsSub(ms: seq<Record>, f: Filters)
    ensures Sub(Filter(ms, f), ms)
    decreases |ms|
  {
    if ms != [] {
      FilterIsSub(ms[1..], f);
      var rest := Filter(ms[1..], f);
      if Keep(ms[0], f) {
        assert Filter(ms, f) == [ms[0]] + rest;
        assert (Filter(ms, f))[1..] == rest;
      } else {
        assert Filter(ms, f) == rest;
      }
    }
  }

  /** With all four inputs empty the filter keeps the whole roster. */
  lemma {:induction false} FilterNoFilters(ms: seq<Record>)
    ensures Filter(ms, NoFilters) == ms
    decreases |ms|
  {
    if ms != [] {
      FilterNoFilters(ms[1..]);
      assert Keep(ms[0], NoFilters);
      assert [ms[0]] + ms[1..] == ms;
    }
  }

  /** `g` agrees with `f` on every input `f` has filled in, and may fill in more. */
  predicate Narrower(g: Filters, f: Filters) {
    (f.searchTerm == "" || g.searchTerm == f.searchTerm) &&
    (f.gender == "" || g.gender == f.gender) &&
    (f.year == "" || g.year == f.year) &&
    (f.interest == "" || g.interest == f.interest)
  }

  lemma KeepNarrower(m: Record, g: Filters, f: Filters)
    requires Narrower(g, f) && Keep(m, g)
    ensures Keep(m, f)
  {
  }

  /** Filling in more filter inputs never enlarges the result: the narrower result is a
      subsequence of the wider one. */
  lemma {:induction false} FilterNarrowing(ms: seq<Record>, g: Filters, f: Filters)
    requires Narrower(g, f)
    ensures Sub(Filter(ms, g), Filter(ms, f))
    ensures |Filter(ms, g)| <= |Filter(ms, f)|
    decreases |ms|
  {
    if ms != [] {
      FilterNarrowing(ms[1..], g, f);
      var rg, rf := Filter(ms[1..], g), Filter(ms[1..], f);
      if Keep(ms[0], g) {
        KeepNarrower(ms[0], g, f);
        assert Filter(ms, g) == [ms[0]] + rg && (Filter(ms, g))[1..] == rg;
        assert Filter(ms, f) == [ms[0]] + rf && (Filter(ms, f))[1..] == rf;
      } else if Keep(ms[0], f) {
        assert Filter(ms, g) == rg;
        assert Filter(ms, f) == [ms[0]] + rf && (Filter(ms, f))[1..] == rf;
      } else {
        assert Filter(ms, g) == rg && Filter(ms, f) == rf;
      }
    }
    SubLength(Filter(ms, g), Filter(ms, f));
  }

  /** On a sanitised record the search clause looks only at fields other than id and password. */
  lemma SearchIgnoresHidden(r: Record, term: string)
    ensures MatchesSearch(Sanitize(r), term) <==>
            term == "" || exists k | k in r && k !in HiddenKeys :: FieldMatches(r[k], term)
  {
    var s := Sanitize(r);
    if term != "" && MatchesSearch(s, term) {
      var k :| k in s && FieldMatches(s[k], term);
      assert k in r && k !in HiddenKeys;
    }
  }

  /** Every record the roster shows lacks id and password. */
  lemma RosterHidesSecrets(data: seq<Record>, f: Filters)
    ensures forall x :: x in Filter(SanitizeAll(data), f) ==> "id" !in x && "password" !in x
  {
    forall x | x in Filter(SanitizeAll(data), f)
      ensures "id" !in x && "password" !in x
    {
      var i :| 0 <= i < |SanitizeAll(data)| && SanitizeAll(data)[i] == x;
    }
  }

  // ---------------------------------------------------------------------
  // The view's state
  // ---------------------------------------------------------------------

  /** The reply to the profile update request. */
  datatype SaveReply =
    | Saved(updated: Record)   // response.ok: the record the store now holds
    | Rejected(text: string)   // !response.ok: the plain-text body
    | SaveThrew                // the request or the JSON decoding threw

  /** The update request the save handler issues: `PUT /users/<id>` with the draft as body. */
  datatype PutRequest = PutRequest(id: string, body: Record)

  /** The roster table body: rows, or the single "No members found." row. */
  datatype Table = Rows(rows: seq<seq<Option<string>>>) | NoMembersFound

  /** What the view renders. */
  datatype Screen = Loading | ErrorPage(message: string) | Ready(draft: seq<string>, table: Table)

  /** The roster columns, in table order. */
  const RosterColumns: seq<string> := ["name", "username", "email", "gender", "university", "year", "interest"]

  function RosterRow(m: Record): (row: seq<Option<string>>)
    ensures |row| == |RosterColumns|
    ensures forall i :: 0 <= i < |row| ==> row[i] == Get(m, RosterColumns[i])
  {
    seq(|RosterColumns|, i requires 0 <= i < |RosterColumns| => Get(m, RosterColumns[i]))
  }

  /** The edit form's input values: `editedUser?.[key] || ""` for every draft key. */
  function FormValues(d: Record): (vs: seq<string>)
    ensures |vs| == |DraftKeys|
    ensures forall i :: 0 <= i < |vs| ==> vs[i] == OrEmpty(Get(d, DraftKeys[i]))
  {
    seq(|DraftKeys|, i requires 0 <= i < |DraftKeys| => OrEmpty(Get(d, DraftKeys[i])))
  }

  const SaveOkAlert: string := "Profile updated successfully!"
  const SaveThrewAlert: string := "There was an error updating the profile. Please try again."
  const InvalidDraftAlert: string := "Error: Invalid user data."
  const NoSessionAlert: string := "No user logged in!"
  const FetchFailedMessage: string := "Failed to fetch user data."

  class MembersView {
    var currentUser: Option<Record>
    var members: seq<Record>
    var loading: bool
    var error: Option<string>
    var isEditing: bool
    var editedUser: Record
    var filters: Filters

    constructor ()
      ensures currentUser == None && members == [] && loading && error == None
      ensures !isEditing && editedUser == map[] && filters == NoFilters
    {
      currentUser, members, loading, error := None, [], true, None;
      isEditing, editedUser, filters := false, map[], NoFilters;
    }

    /** The first effect: seed the draft from the stored session, or warn that nobody is logged in. */
    method LoadSession(stored: Option<Record>) returns (alert: Option<string>)
      modifies this
      ensures stored.Some? ==> alert == None && editedUser == SeedDraft(stored.value) && currentUser == stored
      ensures stored.None? ==> alert == Some(NoSessionAlert) && editedUser == old(editedUser) && currentUser == old(currentUser)
      ensures members == old(members) && loading == old(loading) && error == old(error)
      ensures isEditing == old(isEditing) && filters == old(filters)
    {
      if stored.Some? {
        editedUser := SeedDraft(stored.value);
        currentUser := stored;
        alert := None;
      } else {
        alert := Some(NoSessionAlert);
      }
    }

    /** The second effect: store the sanitised roster, or the error; loading ends either way. */
    method ReceiveMembers(reply: FetchReply)
      modifies this
      ensures !loading
      ensures reply.Fetched? ==> members == SanitizeAll(reply.data) && error == old(error)
      ensures reply.HttpError? ==> members == old(members) && error == Some(FetchFailedMessage)
      ensures reply.Thrown? ==> members == old(members) && error == Some(reply.message)
      ensures currentUser == old(currentUser) && isEditing == old(isEditing)
      ensures editedUser == old(editedUser) && filters == old(filters)
    {
      match reply {
        case Fetched(data) => members := SanitizeAll(data);
        case HttpError => error := Some(FetchFailedMessage);
        case Thrown(message) => error := Some(message);
      }
      loading := false;
    }

    /** `handleInputChange`: set the named draft field, leave every other field as it was. */
    method HandleInputChange(name: string, value: string)
      modifies this
      ensures editedUser.Keys == old(editedUser).Keys + {name}
      ensures editedUser[name] == Some(value)
      ensures forall k :: k in old(editedUser) && k != name ==> editedUser[k] == old(editedUser)[k]
      ensures currentUser == old(currentUser) && members == old(members) && loading == old(loading)
      ensures error == old(error) && isEditing == old(isEditing) && filters == old(filters)
    {
      editedUser := editedUser[name := Some(value)];
    }

    /** `handleSaveChanges`: without an id nothing is sent; otherwise the draft is sent and the
        reply decides whether the session and the draft are replaced. */
    method HandleSaveChanges(reply: SaveReply) returns (request: Option<PutRequest>, alert: string)
      modifies this
      ensures !CanSave(old(editedUser)) ==>
                request == None && alert == InvalidDraftAlert &&
                currentUser == old(currentUser) && editedUser == old(editedUser) && isEditing == old(isEditing)
      ensures CanSave(old(editedUser)) ==>
                request == Some(PutRequest(old(editedUser)["id"].value, old(editedUser)))
      ensures CanSave(old(editedUser)) && reply.Saved? ==>
                currentUser == Some(reply.updated) && editedUser == reply.updated && !isEditing &&
                alert == SaveOkAlert
      ensures CanSave(old(editedUser)) && reply.Rejected? ==>
                alert == "Error: " + reply.text &&
                currentUser == old(currentUser) && editedUser == old(editedUser) && isEditing == old(isEditing)
      ensures CanSave(old(editedUser)) && reply.SaveThrew? ==>
                alert == SaveThrewAlert &&
                currentUser == old(currentUser) && editedUser == old(editedUser) && isEditing == old(isEditing)
      ensures members == old(members) && loading == old(loading) && error == old(error) && filters == old(filters)
    {
      if !CanSave(editedUser) {
        return None, InvalidDraftAlert;
      }
      request := Some(PutRequest(editedUser["id"].value, editedUser));
      match reply {
        case Saved(updated) =>
          currentUser := Some(updated);
          editedUser := updated;
          isEditing := false;
          alert := SaveOkAlert;
        case Rejected(text) =>
          alert := "Error: " + text;
        case SaveThrew =>
          alert := SaveThrewAlert;
      }
    }

    /** The onChange handlers of the four filter inputs. */
    method SetFilters(f: Filters)
      modifies this
      ensures filters == f
      ensures currentUser == old(currentUser) && members == old(members) && loading == old(loading)
      ensures error == old(error) && isEditing == old(isEditing) && editedUser == old(editedUser)
    {
      filters := f;
    }

    /** `filteredMembers`, recomputed from the current roster and inputs. */
    function FilteredMembers(): (r: seq<Record>)
      reads this
      ensures r == Filter(members, filters)
      ensures Sub(r, members)
      ensures filters == NoFilters ==> r == members
    {
      FilterIsSub(members, filters);
      if filters == NoFilters then FilterNoFilters(members); Filter(members, filters)
      else Filter(members, filters)
    }

    /** The render: loading first, then a truthy error, then the form and the roster table,
        whose body is the placeholder row exactly when nothing passes the filter. */
    function Render(): (s: Screen)
      reads this
      ensures loading ==> s == Loading
      ensures !loading && Truthy(error) ==> s == ErrorPage(error.value)
      ensures !loading && !Truthy(error) ==> s.Ready? && s.draft == FormValues(editedUser)
      ensures s.Ready? ==> (s.table == NoMembersFound <==> FilteredMembers() == [])
      ensures s.Ready? && s.table.Rows? ==> |s.table.rows| == |FilteredMembers()|
      ensures s.Ready? && s.table.Rows? ==>
                forall i :: 0 <= i < |s.table.rows| ==> s.table.rows[i] == RosterRow(FilteredMembers()[i])
    {
      if loading then Loading
      else if Truthy(error) then ErrorPage(error.value)
      else
        var shown := FilteredMembers();
        Ready(FormValues(editedUser),
              if |shown| > 0 then Rows(seq(|shown|, i requires 0 <= i < |shown| => RosterRow(shown[i])))
              else NoMembersFound)
    }
  }
}

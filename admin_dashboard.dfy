/**
 * The administrator's page (`src/pages/AdminDashboard.tsx`): the driver
 * search, the table-cell fallbacks, the redirect-or-load decision of its
 * effect, and the approve/reject handlers.
 */
module AdminDashboard {
  import opened Wrappers
  import opened Types
  import opened Backend
  import SupabaseApi

  /** `toLowerCase` on one character, for the ASCII letters. */
  function LowerChar(c: char): char
  {
    if 'A' <= c <= 'Z' then (c as int - 'A' as int + 'a' as int) as char else c
  }

  function Lower(s: string): (r: string)
    ensures |r| == |s|
    ensures forall i | 0 <= i < |s| :: r[i] == LowerChar(s[i])
  {
    if s == [] then [] else [LowerChar(s[0])] + Lower(s[1..])
  }

  /** `needle` occurs in `hay` starting at index `i`. */
  predicate OccursAt(hay: string, needle: string, i: int)
  {
    0 <= i <= |hay| - |needle| && hay[i..i + |needle|] == needle
  }

  /** `hay.includes(needle)`: `needle` occurs somewhere in `hay`. */
  predicate Includes(hay: string, needle: string)
  {
    exists i | 0 <= i <= |hay| - |needle| :: OccursAt(hay, needle, i)
  }

  /**
   * `field?.toLowerCase().includes(searchTerm.toLowerCase())`: a missing
   * field gives `undefined`, which is falsy.
   */
  predicate FieldMatches(field: Option<string>, term: string)
  {
    field.Some? && Includes(Lower(field.value), Lower(term))
  }

  /** The predicate `filteredDrivers` keeps a driver by. */
  predicate Matches(d: DriverProfile, term: string)
  {
    FieldMatches(d.firstName, term) || FieldMatches(d.lastName, term) || FieldMatches(d.email, term)
  }

  /** `drivers.filter(...)`: the drivers the search term matches, each as often as it occurs. */
  function FilterDrivers(drivers: seq<DriverProfile>, term: string): (r: seq<DriverProfile>)
    ensures |r| <= |drivers|
    ensures forall d | d in r :: Matches(d, term)
    ensures forall d :: multiset(r)[d] == if Matches(d, term) then multiset(drivers)[d] else 0
  {
    if drivers == [] then []
    else
      assert drivers == [drivers[0]] + drivers[1..];
      var rest := FilterDrivers(drivers[1..], term);
      if Matches(drivers[0], term) then [drivers[0]] + rest else rest
  }

  /** `sub` is `s` with some elements left out, the rest kept in order. */
  predicate Subsequence<T(==)>(sub: seq<T>, s: seq<T>)
    decreases |s|
  {
    if sub == [] then true
    else if s == [] then false
    else (sub[0] == s[0] && Subsequence(sub[1..], s[1..])) || Subsequence(sub, s[1..])
  }

  /** The search keeps drivers in their original order. */
  lemma {:induction false} FilterIsSubsequence(drivers: seq<DriverProfile>, term: string)
    ensures Subsequence(FilterDrivers(drivers, term), drivers)
    decreases |drivers|
  {
    if drivers != [] {
      FilterIsSubsequence(drivers[1..], term);
    }
  }

  /** Filtering a concatenation filters each part. */
  lemma {:induction false} FilterAppend(a: seq<DriverProfile>, b: seq<DriverProfile>, term: string)
    ensures FilterDrivers(a + b, term) == FilterDrivers(a, term) + FilterDrivers(b, term)
    decreases |a|
  {
    if a == [] {
      assert a + b == b;
    } else {
      assert (a + b)[0] == a[0];
      assert (a + b)[1..] == a[1..] + b;
      FilterAppend(a[1..], b, term);
    }
  }

  /** Searching again with the same term changes nothing. */
  lemma {:induction false} FilterIdempotent(drivers: seq<DriverProfile>, term: string)
    ensures FilterDrivers(FilterDrivers(drivers, term), term) == FilterDrivers(drivers, term)
    decreases |drivers|
  {
    if drivers != [] {
      FilterIdempotent(drivers[1..], term);
    }
  }

  lemma IncludesEmpty(hay: string)
    ensures Includes(hay, "")
  {
    assert OccursAt(hay, "", 0);
  }

  /**
   * A driver whose first name, last name and email are all missing is
   * never listed, not even for the empty search term.
   */
  lemma NoFieldsNeverKept(d: DriverProfile, term: string)
    requires d.firstName.None? && d.lastName.None? && d.email.None?
    ensures d !in FilterDrivers([d], term)
  {
  }

  /** The empty search term lists exactly the drivers with at least one of the three fields. */
  lemma EmptyTermKeepsNamed(d: DriverProfile)
    ensures Matches(d, "") <==> d.firstName.Some? || d.lastName.Some? || d.email.Some?
  {
    if d.firstName.Some? {
      IncludesEmpty(Lower(d.firstName.value));
    }
    if d.lastName.Some? {
      IncludesEmpty(Lower(d.lastName.value));
    }
    if d.email.Some? {
      IncludesEmpty(Lower(d.email.value));
    }
  }

  /** The search ignores the case of ASCII letters in the term. */
  lemma SearchIgnoresTermCase(d: DriverProfile, term: string)
    ensures Matches(d, Lower(term)) <==> Matches(d, term)
  {
    assert Lower(Lower(term)) == Lower(term);
  }

  /** The name cell: first name, a space, last name, each missing one shown as ''. */
  function NameCell(d: DriverProfile): (r: string)
    ensures |r| == |OrEmpty(d.firstName)| + 1 + |OrEmpty(d.lastName)|
    ensures r[..|OrEmpty(d.firstName)|] == OrEmpty(d.firstName) && r[|OrEmpty(d.firstName)|] == ' '
    ensures r[|OrEmpty(d.firstName)| + 1..] == OrEmpty(d.lastName)
  {
    OrEmpty(d.firstName) + " " + OrEmpty(d.lastName)
  }

  /** The phone cell is never blank: the phone, or '-' when it is missing or empty. */
  function PhoneCell(d: DriverProfile): (r: string)
    ensures r != ""
    ensures Truthy(d.phone) ==> r == d.phone.value
    ensures !Truthy(d.phone) ==> r == "-"
  {
    if Truthy(d.phone) then d.phone.value else "-"
  }

  /** The vehicle cell: make and model when both are present, else 'Not provided'. */
  function VehicleCell(d: DriverProfile): (r: string)
    ensures Truthy(d.carMake) && Truthy(d.carModel) ==>
      var make := d.carMake.value;
      |r| == |make| + 1 + |d.carModel.value| && r[..|make|] == make && r[|make|] == ' ' &&
      r[|make| + 1..] == d.carModel.value
    ensures !(Truthy(d.carMake) && Truthy(d.carModel)) ==> r == "Not provided"
  {
    if Truthy(d.carMake) && Truthy(d.carModel) then d.carMake.value + " " + d.carModel.value else "Not provided"
  }

  /** What the page's effect does for an authentication state. */
  datatype Plan = Plan(deny: bool, load: bool)

  /**
   * The effect: a denial (toast and navigation to '/dashboard') when the
   * state is settled and not an administrator's, and `loadData` doing work
   * only when it is settled and an administrator's.
   */
  function EffectPlan(auth: AuthData): (p: Plan)
    ensures p.deny <==> !auth.isLoading && !auth.isAdmin
    ensures p.load <==> !auth.isLoading && auth.isAdmin
  {
    Plan(!auth.isLoading && !auth.isAdmin, !auth.isLoading && auth.isAdmin)
  }

  /**
   * Nothing happens while the state loads; once settled the page either
   * denies or loads, never both, and it loads only for a signed-in user.
   */
  lemma PlanCases(auth: AuthData)
    requires auth.AdminImpliesUser()
    ensures auth.isLoading ==> EffectPlan(auth) == Plan(false, false)
    ensures !auth.isLoading ==> EffectPlan(auth).deny != EffectPlan(auth).load
    ensures EffectPlan(auth).load ==> auth.user.Some?
  {
  }

  /** The toasts the page shows. */
  datatype Notice =
    | AccessDenied
    | Reviewed(status: VerificationStatus)
    | ReviewFailed(status: VerificationStatus)
    | UnexpectedError

  /** The administrator's page state. */
  class AdminPage {
    var drivers: seq<DriverProfile>
    var pendingVerifications: seq<PosterVerification>
    var isLoadingDrivers: bool
    var isLoadingVerifications: bool
    var searchTerm: string
    /** The toasts shown so far. */
    var notices: seq<Notice>

    constructor ()
      ensures drivers == [] && pendingVerifications == [] && searchTerm == "" && notices == []
      ensures isLoadingDrivers && isLoadingVerifications
    {
      drivers, pendingVerifications, searchTerm, notices := [], [], "", [];
      isLoadingDrivers, isLoadingVerifications := true, true;
    }

    /** The rows of the drivers table. */
    function FilteredDrivers(): seq<DriverProfile>
      reads this
    {
      FilterDrivers(drivers, searchTerm)
    }

    /** Typing in the search box. */
    method Search(term: string)
      modifies this`searchTerm
      ensures searchTerm == term
    {
      searchTerm := term;
    }

    /**
     * The effect for `auth`: the denial, then `loadData`. The two list
     * fetches are answered by `allDrivers` and `verifications`; a throw
     * rejects `loadData` at that await, leaving what was set before it.
     */
    method RunEffect(auth: AuthData, allDrivers: Await<Rows<DriverProfile>>, verifications: Await<Rows<PosterVerification>>)
      returns (navigateTo: Option<string>, requests: seq<SupabaseApi.Request>)
      modifies this`drivers, this`pendingVerifications, this`isLoadingDrivers, this`isLoadingVerifications, this`notices
      ensures EffectPlan(auth).deny ==> navigateTo == Some("/dashboard") && notices == old(notices) + [AccessDenied]
      ensures !EffectPlan(auth).deny ==> navigateTo.None? && notices == old(notices)
      ensures !EffectPlan(auth).load ==>
        requests == [] && drivers == old(drivers) && pendingVerifications == old(pendingVerifications) &&
        isLoadingDrivers == old(isLoadingDrivers) && isLoadingVerifications == old(isLoadingVerifications)
      ensures EffectPlan(auth).load && allDrivers.Threw? ==>
        requests == [SupabaseApi.ListDrivers] && isLoadingDrivers && isLoadingVerifications &&
        drivers == old(drivers) && pendingVerifications == old(pendingVerifications)
      ensures EffectPlan(auth).load && allDrivers.Resolved? ==>
        requests == [SupabaseApi.ListDrivers, SupabaseApi.ListPendingVerifications] &&
        drivers == SupabaseApi.RowsOrEmpty(allDrivers).value && !isLoadingDrivers
      ensures EffectPlan(auth).load && allDrivers.Resolved? && verifications.Threw? ==>
        isLoadingVerifications && pendingVerifications == old(pendingVerifications)
      ensures EffectPlan(auth).load && allDrivers.Resolved? && verifications.Resolved? ==>
        pendingVerifications == SupabaseApi.RowsOrEmpty(verifications).value && !isLoadingVerifications
    {
      navigateTo, requests := None, [];
      if !auth.isLoading && !auth.isAdmin {
        notices := notices + [AccessDenied];
        navigateTo := Some("/dashboard");
      }
      if !auth.isLoading && auth.isAdmin {
        isLoadingDrivers := true;
        isLoadingVerifications := true;
        requests := requests + [SupabaseApi.ListDrivers];
        var loaded := SupabaseApi.RowsOrEmpty(allDrivers);
        if loaded.Threw? {
          return;
        }
        drivers := loaded.value;
        isLoadingDrivers := false;
        requests := requests + [SupabaseApi.ListPendingVerifications];
        var pending := SupabaseApi.RowsOrEmpty(verifications);
        if pending.Threw? {
          return;
        }
        pendingVerifications := pending.value;
        isLoadingVerifications := false;
      }
    }

    /**
     * `handleApproveVerification` (`status` Approved) and
     * `handleRejectVerification` (`status` Rejected): update the row, then
     * on success show the confirmation and refetch the pending list. Any
     * throw on the way ends in the unexpected-error toast.
     */
    method Review(id: string, status: VerificationStatus, now: string, currentUser: Await<Option<AuthUser>>,
                  update: Await<Option<DbError>>, refetch: Await<Rows<PosterVerification>>)
      returns (requests: seq<SupabaseApi.Request>)
      requires status != Pending
      modifies this`pendingVerifications, this`notices
      ensures var reviewer := if currentUser.Resolved? && currentUser.value.Some? then Some(currentUser.value.value.id) else None;
        var sent := if currentUser.Threw? then [SupabaseApi.GetUser]
                    else [SupabaseApi.GetUser, SupabaseApi.UpdateVerification(id, status, now, reviewer)];
        var outcome := if currentUser.Threw? then Threw(currentUser.reason) else SupabaseApi.WriteOutcome(update);
        (outcome.Threw? ==>
          requests == sent && notices == old(notices) + [UnexpectedError] &&
          pendingVerifications == old(pendingVerifications)) &&
        (outcome == Resolved(false) ==>
          requests == sent && notices == old(notices) + [ReviewFailed(status)] &&
          pendingVerifications == old(pendingVerifications)) &&
        (outcome == Resolved(true) ==>
          requests == sent + [SupabaseApi.ListPendingVerifications] &&
          (refetch.Threw? ==>
            notices == old(notices) + [Reviewed(status), UnexpectedError] &&
            pendingVerifications == old(pendingVerifications)) &&
          (refetch.Resolved? ==>
            notices == old(notices) + [Reviewed(status)] &&
            pendingVerifications == SupabaseApi.RowsOrEmpty(refetch).value))
    {
      var success;
      success, requests := SupabaseApi.UpdateVerificationStatus(id, status, now, currentUser, update);
      if success.Threw? {
        notices := notices + [UnexpectedError];
        return;
      }
      if !success.value {
        notices := notices + [ReviewFailed(status)];
        return;
      }
      notices := notices + [Reviewed(status)];
      requests := requests + [SupabaseApi.ListPendingVerifications];
      var pending := SupabaseApi.RowsOrEmpty(refetch);
      if pending.Threw? {
        notices := notices + [UnexpectedError];
        return;
      }
      pendingVerifications := pending.value;
    }
  }
}

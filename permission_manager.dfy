/**
 * The permission helper's bookkeeping: a list of required permissions that
 * callers extend and clear, queries that split it by the platform's grant
 * check, and the decision whether to notify at once or to ask the user.
 * The grant check is the parameter `granted`.
 */
module PermissionManager {
  import opened Wrappers

  /** `requiredPermissions.all { granted }`. */
  function AllGranted(ps: seq<string>, granted: string -> bool): (r: bool)
    ensures r <==> forall i :: 0 <= i < |ps| ==> granted(ps[i])
    decreases |ps|
  {
    if ps == [] then true
    else if !granted(ps[0]) then false
    else AllGranted(ps[1..], granted)
  }

  /** `requiredPermissions.firstOrNull { !granted }`. */
  function FirstDenied(ps: seq<string>, granted: string -> bool): (r: Option<string>)
    ensures r.None? <==> AllGranted(ps, granted)
    ensures r.Some? ==> r.value in ps && !granted(r.value)
    decreases |ps|
  {
    if ps == [] then None
    else if !granted(ps[0]) then Some(ps[0])
    else FirstDenied(ps[1..], granted)
  }

  /** The entry found is the earliest one not granted. */
  lemma {:induction false} FirstDeniedIsEarliest(ps: seq<string>, granted: string -> bool)
    requires FirstDenied(ps, granted).Some?
    ensures exists i :: 0 <= i < |ps| && ps[i] == FirstDenied(ps, granted).value
                        && forall j :: 0 <= j < i ==> granted(ps[j])
    decreases |ps|
  {
    if granted(ps[0]) {
      FirstDeniedIsEarliest(ps[1..], granted);
      var i :| 0 <= i < |ps[1..]| && ps[1..][i] == FirstDenied(ps, granted).value
               && forall j :: 0 <= j < i ==> granted(ps[1..][j]);
      assert ps[i + 1] == FirstDenied(ps, granted).value;
      assert forall j :: 0 <= j < i + 1 ==> granted(ps[j]) by {
        forall j | 0 <= j < i + 1 ensures granted(ps[j]) {
          if j > 0 { assert ps[j] == ps[1..][j - 1]; }
        }
      }
    } else {
      assert ps[0] == FirstDenied(ps, granted).value;
    }
  }

  /** `requiredPermissions.filter { granted == wanted }`: the granted entries for true, the denied ones for false. */
  function Filter(ps: seq<string>, granted: string -> bool, wanted: bool): (r: seq<string>)
    ensures |r| <= |ps|
    ensures forall i :: 0 <= i < |r| ==> granted(r[i]) == wanted
    decreases |ps|
  {
    if ps == [] then []
    else if granted(ps[0]) == wanted then [ps[0]] + Filter(ps[1..], granted, wanted)
    else Filter(ps[1..], granted, wanted)
  }

  function GrantedPermissions(ps: seq<string>, granted: string -> bool): seq<string> {
    Filter(ps, granted, true)
  }

  function DeniedPermissions(ps: seq<string>, granted: string -> bool): seq<string> {
    Filter(ps, granted, false)
  }

  /** Filtering keeps the order: it distributes over concatenation. */
  lemma {:induction false} FilterAppend(a: seq<string>, b: seq<string>, granted: string -> bool, wanted: bool)
    ensures Filter(a + b, granted, wanted) == Filter(a, granted, wanted) + Filter(b, granted, wanted)
    decreases |a|
  {
    if a != [] {
      assert (a + b)[0] == a[0] && (a + b)[1..] == a[1..] + b;
      FilterAppend(a[1..], b, granted, wanted);
    } else {
      assert a + b == b;
    }
  }

  /**
   * The granted and denied lists split the required list: every entry lands
   * in exactly one of them, as often as it occurs.
   */
  lemma {:induction false} GrantedDeniedPartition(ps: seq<string>, granted: string -> bool)
    ensures multiset(GrantedPermissions(ps, granted)) + multiset(DeniedPermissions(ps, granted)) == multiset(ps)
    ensures |GrantedPermissions(ps, granted)| + |DeniedPermissions(ps, granted)| == |ps|
    decreases |ps|
  {
    if ps != [] {
      GrantedDeniedPartition(ps[1..], granted);
      assert ps == [ps[0]] + ps[1..];
    }
  }

  /** Nothing is denied exactly when all entries are granted, and the first denied entry heads the denied list. */
  lemma {:induction false} DeniedAgreesWithFirstDenied(ps: seq<string>, granted: string -> bool)
    ensures DeniedPermissions(ps, granted) == [] <==> AllGranted(ps, granted)
    ensures DeniedPermissions(ps, granted) != [] ==> FirstDenied(ps, granted) == Some(DeniedPermissions(ps, granted)[0])
    decreases |ps|
  {
    if ps != [] {
      DeniedAgreesWithFirstDenied(ps[1..], granted);
    }
  }

  /** What `checkPermissions` does after filtering the list. */
  datatype Decision =
    | NotifyGranted                 // onPermissionsGranted() at once
    | Launch(toRequest: seq<string>) // the system dialog for these entries
    | NoLauncher                    // the activity cannot register a launcher; nothing happens

  /**
   * `checkPermissions`: notify when nothing is missing, otherwise ask for
   * exactly the missing entries, in list order. `canRegister` is false only
   * for an activity that is not a `FragmentActivity`.
   */
  function CheckPermissions(ps: seq<string>, granted: string -> bool, canRegister: bool): (d: Decision)
    ensures d == NotifyGranted <==> AllGranted(ps, granted)
    ensures d.Launch? ==> canRegister && d.toRequest == DeniedPermissions(ps, granted) && d.toRequest != []
    ensures d == NoLauncher <==> !canRegister && !AllGranted(ps, granted)
  {
    DeniedAgreesWithFirstDenied(ps, granted);
    var toRequest := DeniedPermissions(ps, granted);
    if toRequest == [] then NotifyGranted
    else if canRegister then Launch(toRequest)
    else NoLauncher
  }

  /** What the request callback reports. */
  datatype Outcome = AllAllowed | Denied(permissions: seq<string>)

  /** The keys answered false, in the order the answers come. */
  function Refused(answers: seq<(string, bool)>): (r: seq<string>)
    ensures |r| <= |answers|
    decreases |answers|
  {
    if answers == [] then []
    else if !answers[0].1 then [answers[0].0] + Refused(answers[1..])
    else Refused(answers[1..])
  }

  /** The request callback: `onPermissionsDenied` with the refused entries, or `onPermissionsGranted` when there are none. */
  function RequestOutcome(answers: seq<(string, bool)>): (o: Outcome)
    ensures o == AllAllowed <==> forall i :: 0 <= i < |answers| ==> answers[i].1
    ensures o.Denied? ==> o.permissions == Refused(answers) && o.permissions != []
    ensures o.Denied? ==> forall p :: p in o.permissions <==> (p, false) in answers
  {
    RefusedEmptyIff(answers);
    var denied := Refused(answers);
    if denied == [] then AllAllowed else Denied(denied)
  }

  /**
   * Nothing is refused exactly when every answer is true, and a key is
   * reported exactly when it was answered false.
   */
  lemma {:induction false} RefusedEmptyIff(answers: seq<(string, bool)>)
    ensures Refused(answers) == [] <==> forall i :: 0 <= i < |answers| ==> answers[i].1
    ensures forall p :: p in Refused(answers) <==> (p, false) in answers
    decreases |answers|
  {
    if answers != [] {
      RefusedEmptyIff(answers[1..]);
      assert answers == [answers[0]] + answers[1..];
      forall p ensures p in Refused(answers) <==> (p, false) in answers {
        assert (p, false) in answers <==> answers[0] == (p, false) || (p, false) in answers[1..];
      }
    }
  }

  /**
   * The refused keys come in the order of the answers: refusing distributes
   * over concatenation, and one answer contributes its key exactly when it
   * is false.
   */
  lemma {:induction false} RefusedInOrder(a: seq<(string, bool)>, b: seq<(string, bool)>)
    ensures Refused(a + b) == Refused(a) + Refused(b)
    ensures forall key, v :: Refused([(key, v)]) == if v then [] else [key]
    decreases |a|
  {
    if a != [] {
      assert (a + b)[0] == a[0] && (a + b)[1..] == a[1..] + b;
      RefusedInOrder(a[1..], b);
    } else {
      assert a + b == b;
    }
  }

  /** The helper object: the required list it accumulates and the pending request it drops on `clear`. */
  class Permissions {
    var requiredPermissions: seq<string>
    var hasPermissionRequest: bool

    constructor()
      ensures requiredPermissions == [] && !hasPermissionRequest
    {
      requiredPermissions := [];
      hasPermissionRequest := false;
    }

    /** `withPermissions`: appends in argument order, duplicates kept, and returns the same object. */
    method WithPermissions(permissions: seq<string>) returns (self: Permissions)
      modifies this
      ensures self == this
      ensures requiredPermissions == old(requiredPermissions) + permissions
      ensures hasPermissionRequest == old(hasPermissionRequest)
    {
      requiredPermissions := requiredPermissions + permissions;
      self := this;
    }

    method Clear()
      modifies this
      ensures requiredPermissions == [] && !hasPermissionRequest
    {
      requiredPermissions := [];
      hasPermissionRequest := false;
    }

    /** `checkPermissions`, which reads the list and changes nothing. */
    method Check(granted: string -> bool, canRegister: bool) returns (d: Decision)
      ensures d == CheckPermissions(requiredPermissions, granted, canRegister)
    {
      var toRequest: seq<string> := [];
      var i := 0;
      while i < |requiredPermissions|
        invariant 0 <= i <= |requiredPermissions|
        invariant toRequest == DeniedPermissions(requiredPermissions[..i], granted)
      {
        var p := requiredPermissions[i];
        assert requiredPermissions[..i + 1] == requiredPermissions[..i] + [p];
        FilterAppend(requiredPermissions[..i], [p], granted, false);
        if !granted(p) {
          toRequest := toRequest + [p];
        }
        i := i + 1;
      }
      assert requiredPermissions[..i] == requiredPermissions;
      DeniedAgreesWithFirstDenied(requiredPermissions, granted);
      if toRequest == [] {
        d := NotifyGranted;
      } else if canRegister {
        d := Launch(toRequest);
      } else {
        d := NoLauncher;
      }
    }
  }
}

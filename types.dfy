/** The claims model shared by every stage of the pipeline, and the prefix
    assertion that a validator applies to the claims it extracted. */
module Types {
  import opened Wrappers
  import opened Values
  import opened GoStrings

  datatype Claims = Claims(id: string, subject: string, groups: seq<string>, extra: Json)

  /** The single result type of the pipeline. `error` collects one line per
      reason the credential was rejected. */
  datatype Validation = Validation(valid: bool, error: string, claims: Claims)

  /** Required prefixes on the identity fields; an empty prefix accepts anything. */
  datatype Assertion = Assertion(idPrefix: string, subjectPrefix: string, groupPrefix: string)

  /** Go's zero `Claims` and zero `Validation` (a nil `Groups` slice and a
      nil `Extra` are not told apart from empty ones). */
  const NoClaims: Claims := Claims("", "", [], JNull)
  const Zero: Validation := Validation(false, "", NoClaims)

  /** What every handler returns: a `Validation`, and an error that is set
      only when the failure is the gateway's and not the credential's. */
  datatype Outcome = Outcome(validation: Validation, err: Option<string>)

  /** A rejection that carries no claims. */
  function Invalid(message: string): Validation {
    Validation(false, message, NoClaims)
  }

  /** The line `Assert` appends for one failed check, naming the field,
      its value and the prefix, each value quoted as `%q` quotes it. */
  function Line(field: string, value: string, prefix: string): string {
    "Expected " + field + " " + Quote(value) + " to have prefix " + Quote(prefix) + "\n"
  }

  function IdLine(id: string, prefix: string): string {
    Line("ID", id, prefix)
  }

  function SubjectLine(subject: string, prefix: string): string {
    Line("subject", subject, prefix)
  }

  function GroupLine(group: string, prefix: string): string {
    Line("group", group, prefix)
  }

  /** Every line ends in a newline, so none is empty. */
  lemma LineNonEmpty(field: string, value: string, prefix: string)
    ensures |Line(field, value, prefix)| > 0
  {
    var body := "Expected " + field + " " + Quote(value) + " to have prefix " + Quote(prefix);
    assert Line(field, value, prefix) == body + "\n";
  }

  /** `strings.HasPrefix` on each of the first `n` groups. */
  predicate PrefixUpTo(groups: seq<string>, n: nat, prefix: string)
    requires n <= |groups|
  {
    forall i :: 0 <= i < n ==> HasPrefix(groups[i], prefix)
  }

  predicate AllHavePrefix(groups: seq<string>, prefix: string) {
    PrefixUpTo(groups, |groups|, prefix)
  }

  function IdLines(c: Claims, a: Assertion): string {
    if HasPrefix(c.id, a.idPrefix) then "" else IdLine(c.id, a.idPrefix)
  }

  function SubjectLines(c: Claims, a: Assertion): string {
    if HasPrefix(c.subject, a.subjectPrefix) then "" else SubjectLine(c.subject, a.subjectPrefix)
  }

  /** The lines the group loop appends for the first `n` groups, in list
      order: each group is tested against `tested` and its line names
      `shown`. */
  function GroupLines(groups: seq<string>, n: nat, tested: string, shown: string): string
    requires n <= |groups|
  {
    if n == 0 then ""
    else
      GroupLines(groups, n - 1, tested, shown)
        + (if HasPrefix(groups[n - 1], tested) then "" else GroupLine(groups[n - 1], shown))
  }

  /** One more group: the prefix holds up to `n` iff it held up to `n - 1`
      and holds for group `n - 1`. */
  lemma PrefixUpToStep(groups: seq<string>, n: nat, tested: string)
    requires 0 < n <= |groups|
    ensures PrefixUpTo(groups, n, tested) <==> PrefixUpTo(groups, n - 1, tested) && HasPrefix(groups[n - 1], tested)
  {
  }

  /** One more group adds nothing iff that group passes. */
  lemma GroupLinesStep(groups: seq<string>, n: nat, tested: string, shown: string)
    requires 0 < n <= |groups|
    ensures |GroupLines(groups, n, tested, shown)| == |GroupLines(groups, n - 1, tested, shown)|
            <==> HasPrefix(groups[n - 1], tested)
  {
    var prev := GroupLines(groups, n - 1, tested, shown);
    var line := if HasPrefix(groups[n - 1], tested) then "" else GroupLine(groups[n - 1], shown);
    assert GroupLines(groups, n, tested, shown) == prev + line;
    LineNonEmpty("group", groups[n - 1], shown);
    assert |prev + line| == |prev| + |line|;
  }

  lemma {:induction false} GroupLinesEmpty(groups: seq<string>, n: nat, tested: string, shown: string)
    requires n <= |groups|
    ensures |GroupLines(groups, n, tested, shown)| == 0 <==> PrefixUpTo(groups, n, tested)
  {
    if n > 0 {
      GroupLinesEmpty(groups, n - 1, tested, shown);
      GroupLinesStep(groups, n, tested, shown);
      PrefixUpToStep(groups, n, tested);
      var prev := GroupLines(groups, n - 1, tested, shown);
      assert |GroupLines(groups, n, tested, shown)| >= |prev| by {
        assert GroupLines(groups, n, tested, shown)[..|prev|] == prev;
      }
    }
  }

  // ---------------------------------------------------------------------
  // The assertion step by step, as `Validation.Assert` performs it

  /** The ID check, then the subject check. */
  function Checked(v: Validation, a: Assertion): Validation {
    var w := if HasPrefix(v.claims.id, a.idPrefix) then v
             else v.(valid := false, error := v.error + IdLine(v.claims.id, a.idPrefix));
    if HasPrefix(w.claims.subject, a.subjectPrefix) then w
    else w.(valid := false, error := w.error + SubjectLine(w.claims.subject, a.subjectPrefix))
  }

  /** The group loop over the first `n` groups: a group failing `tested`
      clears `valid` and appends a line naming `shown`. */
  function GroupsChecked(w: Validation, tested: string, shown: string, n: nat): Validation
    requires n <= |w.claims.groups|
  {
    if n == 0 then w
    else
      var u := GroupsChecked(w, tested, shown, n - 1);
      var group := w.claims.groups[n - 1];
      if HasPrefix(group, tested) then u
      else u.(valid := false, error := u.error + GroupLine(group, shown))
  }

  /** The `Validation` that `Assert` leaves behind. As written, the group
      loop tests the SUBJECT prefix and names the group prefix. */
  function Asserted(v: Validation, a: Assertion): Validation {
    GroupsChecked(Checked(v, a), a.subjectPrefix, a.groupPrefix, |v.claims.groups|)
  }

  /** `Validation.Assert`: each failed check clears `valid` and appends its
      line to `error`; all checks run, none stops the others. */
  method Assert(v: Validation, a: Assertion) returns (r: Validation)
    ensures r == Asserted(v, a)
  {
    r := v;
    if !HasPrefix(r.claims.id, a.idPrefix) {
      r := r.(valid := false, error := r.error + IdLine(r.claims.id, a.idPrefix));
    }
    if !HasPrefix(r.claims.subject, a.subjectPrefix) {
      r := r.(valid := false, error := r.error + SubjectLine(r.claims.subject, a.subjectPrefix));
    }
    ghost var head := r;
    for i := 0 to |r.claims.groups|
      invariant head == Checked(v, a)
      invariant r.claims == head.claims
      invariant r == GroupsChecked(head, a.subjectPrefix, a.groupPrefix, i)
    {
      var group := r.claims.groups[i];
      if !HasPrefix(group, a.subjectPrefix) {
        r := r.(valid := false, error := r.error + GroupLine(group, a.groupPrefix));
      }
    }
  }

  // ---------------------------------------------------------------------
  // What the assertion computes

  lemma AppendAssoc(x: string, y: string, z: string)
    ensures (x + y) + z == x + (y + z)
  {
  }

  lemma AppendEmpty(x: string)
    ensures x + "" == x
  {
  }

  lemma CheckedSpec(v: Validation, a: Assertion)
    ensures Checked(v, a).claims == v.claims
    ensures Checked(v, a).valid == (v.valid && HasPrefix(v.claims.id, a.idPrefix) && HasPrefix(v.claims.subject, a.subjectPrefix))
    ensures Checked(v, a).error == v.error + IdLines(v.claims, a) + SubjectLines(v.claims, a)
  {
    AppendEmpty(v.error);
    AppendEmpty(v.error + IdLines(v.claims, a));
  }

  /** The group loop keeps the claims, keeps `valid` exactly while every
      group so far passed, and appends exactly the lines of the failing
      groups. */
  lemma {:induction false} GroupsCheckedClaims(w: Validation, tested: string, shown: string, n: nat)
    requires n <= |w.claims.groups|
    ensures GroupsChecked(w, tested, shown, n).claims == w.claims
  {
    if n > 0 {
      GroupsCheckedClaims(w, tested, shown, n - 1);
    }
  }

  lemma {:induction false} GroupsCheckedValid(w: Validation, tested: string, shown: string, n: nat)
    requires n <= |w.claims.groups|
    ensures GroupsChecked(w, tested, shown, n).valid == (w.valid && PrefixUpTo(w.claims.groups, n, tested))
  {
    if n > 0 {
      GroupsCheckedValid(w, tested, shown, n - 1);
    }
  }

  lemma {:induction false} GroupsCheckedError(w: Validation, tested: string, shown: string, n: nat)
    requires n <= |w.claims.groups|
    ensures GroupsChecked(w, tested, shown, n).error == w.error + GroupLines(w.claims.groups, n, tested, shown)
  {
    if n == 0 {
      AppendEmpty(w.error);
    } else {
      GroupsCheckedError(w, tested, shown, n - 1);
      var lines := GroupLines(w.claims.groups, n - 1, tested, shown);
      var group := w.claims.groups[n - 1];
      var u := GroupsChecked(w, tested, shown, n - 1);
      if HasPrefix(group, tested) {
        AppendEmpty(lines);
        assert GroupLines(w.claims.groups, n, tested, shown) == lines;
        assert GroupsChecked(w, tested, shown, n) == u;
      } else {
        var line := GroupLine(group, shown);
        AppendAssoc(w.error, lines, line);
        assert GroupLines(w.claims.groups, n, tested, shown) == lines + line;
        assert GroupsChecked(w, tested, shown, n).error == u.error + line;
      }
    }
  }

  /** Everything `Assert` appends: the ID line, the subject line, then one
      line per failing group, tested against `tested`. */
  function FailureLines(c: Claims, a: Assertion, tested: string): string {
    IdLines(c, a) + SubjectLines(c, a) + GroupLines(c.groups, |c.groups|, tested, a.groupPrefix)
  }

  lemma FailureLinesEmpty(c: Claims, a: Assertion, tested: string)
    ensures |FailureLines(c, a, tested)| == 0
            <==> HasPrefix(c.id, a.idPrefix) && HasPrefix(c.subject, a.subjectPrefix) && AllHavePrefix(c.groups, tested)
  {
    GroupLinesEmpty(c.groups, |c.groups|, tested, a.groupPrefix);
  }

  /** The checks `Assert` performs. As written, every group is tested against
      the SUBJECT prefix; `groupPrefix` only appears in the message. */
  predicate Passes(c: Claims, a: Assertion) {
    && HasPrefix(c.id, a.idPrefix)
    && HasPrefix(c.subject, a.subjectPrefix)
    && AllHavePrefix(c.groups, a.subjectPrefix)
  }

  /** The assertion keeps the claims; the result is valid exactly when the
      input was and every check passed; the error gains exactly the lines
      of the failed checks, in order, and gains nothing exactly when every
      check passed. */
  lemma AssertedSpec(v: Validation, a: Assertion)
    ensures Asserted(v, a).claims == v.claims
    ensures Asserted(v, a).valid <==> v.valid && Passes(v.claims, a)
    ensures Asserted(v, a).error == v.error + FailureLines(v.claims, a, a.subjectPrefix)
    ensures HasPrefix(Asserted(v, a).error, v.error)
    ensures Asserted(v, a).error == v.error <==> Passes(v.claims, a)
  {
    var w := Checked(v, a);
    CheckedSpec(v, a);
    GroupsCheckedClaims(w, a.subjectPrefix, a.groupPrefix, |v.claims.groups|);
    GroupsCheckedValid(w, a.subjectPrefix, a.groupPrefix, |v.claims.groups|);
    GroupsCheckedError(w, a.subjectPrefix, a.groupPrefix, |v.claims.groups|);
    var i, s, g := IdLines(v.claims, a), SubjectLines(v.claims, a),
                   GroupLines(v.claims.groups, |v.claims.groups|, a.subjectPrefix, a.groupPrefix);
    AppendAssoc(v.error + i, s, g);
    AppendAssoc(v.error, i, s + g);
    AppendAssoc(i, s, g);
    var r := Asserted(v, a);
    assert r.error == v.error + FailureLines(v.claims, a, a.subjectPrefix);
    assert r.error[..|v.error|] == v.error;
    FailureLinesEmpty(v.claims, a, a.subjectPrefix);
    assert |r.error| == |v.error| + |FailureLines(v.claims, a, a.subjectPrefix)|;
  }

  lemma PrefixOfAppend(x: string, y: string)
    ensures HasPrefix(x + y, x)
  {
    assert (x + y)[..|x|] == x;
  }

  /** With every prefix empty the assertion changes nothing. */
  lemma AssertEmptyPrefixes(v: Validation)
    ensures Asserted(v, Assertion("", "", "")) == v
  {
    var a := Assertion("", "", "");
    AssertedSpec(v, a);
    forall i | 0 <= i < |v.claims.groups|
      ensures HasPrefix(v.claims.groups[i], "")
    {
      assert v.claims.groups[i][..0] == "";
    }
    assert v.claims.id[..0] == "" && v.claims.subject[..0] == "";
  }

  /** Errors accumulate: a claim set that breaks both the ID and the subject
      rule reports both, ID first, after whatever was already there. */
  lemma ErrorsAccumulate(v: Validation, a: Assertion)
    requires !HasPrefix(v.claims.id, a.idPrefix) && !HasPrefix(v.claims.subject, a.subjectPrefix)
    ensures !Asserted(v, a).valid
    ensures HasPrefix(Asserted(v, a).error,
                      v.error + IdLine(v.claims.id, a.idPrefix) + SubjectLine(v.claims.subject, a.subjectPrefix))
  {
    AssertedSpec(v, a);
    var i, s := IdLine(v.claims.id, a.idPrefix), SubjectLine(v.claims.subject, a.subjectPrefix);
    var g := GroupLines(v.claims.groups, |v.claims.groups|, a.subjectPrefix, a.groupPrefix);
    assert FailureLines(v.claims, a, a.subjectPrefix) == i + s + g;
    AppendAssoc(v.error, i + s, g);
    AppendAssoc(v.error, i, s);
    PrefixOfAppend(v.error + i + s, g);
  }

  /** A claim set that fails only the ID rule is rejected with exactly the
      ID line appended. */
  lemma IdRejection(v: Validation, a: Assertion)
    requires !HasPrefix(v.claims.id, a.idPrefix)
    requires HasPrefix(v.claims.subject, a.subjectPrefix) && AllHavePrefix(v.claims.groups, a.subjectPrefix)
    ensures Asserted(v, a) == Validation(false, v.error + IdLine(v.claims.id, a.idPrefix), v.claims)
  {
    AssertedSpec(v, a);
    GroupLinesEmpty(v.claims.groups, |v.claims.groups|, a.subjectPrefix, a.groupPrefix);
    var g := GroupLines(v.claims.groups, |v.claims.groups|, a.subjectPrefix, a.groupPrefix);
    assert g == "";
    AppendEmpty(IdLine(v.claims.id, a.idPrefix));
    AppendEmpty(IdLine(v.claims.id, a.idPrefix) + "");
  }

  // ---------------------------------------------------------------------
  // The assertion as evidently intended: groups tested against groupPrefix

  predicate PassesIntended(c: Claims, a: Assertion) {
    && HasPrefix(c.id, a.idPrefix)
    && HasPrefix(c.subject, a.subjectPrefix)
    && AllHavePrefix(c.groups, a.groupPrefix)
  }

  /** The corrected assertion: the group loop tests the prefix it names. */
  function AssertedIntended(v: Validation, a: Assertion): Validation {
    GroupsChecked(Checked(v, a), a.groupPrefix, a.groupPrefix, |v.claims.groups|)
  }

  /** The three prefixes are independent rules: the result is valid exactly
      when every field has its own prefix. */
  lemma AssertedIntendedSpec(v: Validation, a: Assertion)
    ensures AssertedIntended(v, a).claims == v.claims
    ensures AssertedIntended(v, a).valid <==> v.valid && PassesIntended(v.claims, a)
    ensures AssertedIntended(v, a).error == v.error + FailureLines(v.claims, a, a.groupPrefix)
    ensures HasPrefix(AssertedIntended(v, a).error, v.error)
    ensures AssertedIntended(v, a).error == v.error <==> PassesIntended(v.claims, a)
  {
    var w := Checked(v, a);
    CheckedSpec(v, a);
    GroupsCheckedClaims(w, a.groupPrefix, a.groupPrefix, |v.claims.groups|);
    GroupsCheckedValid(w, a.groupPrefix, a.groupPrefix, |v.claims.groups|);
    GroupsCheckedError(w, a.groupPrefix, a.groupPrefix, |v.claims.groups|);
    var i, s, g := IdLines(v.claims, a), SubjectLines(v.claims, a),
                   GroupLines(v.claims.groups, |v.claims.groups|, a.groupPrefix, a.groupPrefix);
    AppendAssoc(v.error + i, s, g);
    AppendAssoc(v.error, i, s + g);
    AppendAssoc(i, s, g);
    FailureLinesEmpty(v.claims, a, a.groupPrefix);
    var r := AssertedIntended(v, a);
    assert r.error[..|v.error|] == v.error;
    assert |r.error| == |v.error| + |FailureLines(v.claims, a, a.groupPrefix)|;
  }

  /** Which group check an assertion runs: the code as written, or the
      corrected one. */
  datatype GroupCheck = AsWritten | AsIntended

  function AssertedBy(check: GroupCheck, v: Validation, a: Assertion): Validation {
    match check
    case AsWritten => Asserted(v, a)
    case AsIntended => AssertedIntended(v, a)
  }

  /** The defect shows only when the two prefixes differ. */
  lemma AssertAgreesWhenPrefixesEqual(v: Validation, a: Assertion)
    requires a.subjectPrefix == a.groupPrefix
    ensures Asserted(v, a) == AssertedIntended(v, a)
  {
  }

  /** As written, a group prefix alone is never enforced: group "ops" passes
      a required group prefix "team:". */
  lemma GroupPrefixNotEnforced()
    ensures var v := Validation(true, "", Claims("1", "alice", ["ops"], JNull));
            var a := Assertion("", "", "team:");
            Asserted(v, a).valid && !AssertedIntended(v, a).valid
  {
    var v := Validation(true, "", Claims("1", "alice", ["ops"], JNull));
    var a := Assertion("", "", "team:");
    AssertedSpec(v, a);
    AssertedIntendedSpec(v, a);
    assert HasPrefix("1", "") && HasPrefix("alice", "") && HasPrefix("ops", "");
    assert !HasPrefix("ops", "team:");
    assert !AllHavePrefix(v.claims.groups, "team:") by { assert v.claims.groups[0] == "ops"; }
  }

  /** As written, a group that HAS the group prefix but lacks the subject
      prefix is rejected, with a line claiming it lacks the group prefix;
      the corrected assertion accepts it. */
  lemma GroupRejectedForPrefixItHas(v: Validation, a: Assertion, group: string)
    requires HasPrefix(v.claims.id, a.idPrefix) && HasPrefix(v.claims.subject, a.subjectPrefix)
    requires v.claims.groups == [group]
    requires HasPrefix(group, a.groupPrefix) && !HasPrefix(group, a.subjectPrefix)
    ensures Asserted(v, a) == Validation(false, v.error + GroupLine(group, a.groupPrefix), v.claims)
    ensures AssertedIntended(v, a) == v
  {
    AssertedSpec(v, a);
    AssertedIntendedSpec(v, a);
    assert GroupLines([group], 0, a.subjectPrefix, a.groupPrefix) == "";
    AppendEmpty(v.error);
    assert FailureLines(v.claims, a, a.subjectPrefix) == "" + "" + ("" + GroupLine(group, a.groupPrefix));
    assert AllHavePrefix(v.claims.groups, a.groupPrefix);
  }

  /** A concrete instance: group "team:dev" with subject prefix "user:" and
      group prefix "team:". */
  lemma GroupRejectedExample()
    ensures var v := Validation(true, "", Claims("1", "user:alice", ["team:dev"], JNull));
            var a := Assertion("", "user:", "team:");
            && !Asserted(v, a).valid
            && Asserted(v, a).error == GroupLine("team:dev", "team:")
            && AssertedIntended(v, a).valid
  {
    var v := Validation(true, "", Claims("1", "user:alice", ["team:dev"], JNull));
    var a := Assertion("", "user:", "team:");
    assert HasPrefix("1", "");
    assert HasPrefix("user:alice", "user:") by { assert "user:alice"[..5] == "user:"; }
    assert HasPrefix("team:dev", "team:") by { assert "team:dev"[..5] == "team:"; }
    assert !HasPrefix("team:dev", "user:") by { assert "team:dev"[0] != "user:"[0]; }
    GroupRejectedForPrefixItHas(v, a, "team:dev");
  }
}

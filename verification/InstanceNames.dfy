/**
 Names of instances: the Docker-safe token of a free-form name, and the three
 places that derive an instance reference from such tokens.  Lower-casing and
 the eight-digit digest are function arguments.
 */
module InstanceNames {
  import opened Wrappers
  import opened BackendCustody
  import opened DockerBackend

  type Casing = string -> string

  type Digest = string -> string

  predicate ValidChar(c: char) {
    'a' <= c <= 'z' || '0' <= c <= '9' || c == '_' || c == '.' || c == '-'
  }

  predicate ValidFirst(c: char) { 'a' <= c <= 'z' || '0' <= c <= '9' }

  predicate AllValid(s: string) { forall i :: 0 <= i < |s| ==> ValidChar(s[i]) }

  /** A token that Docker accepts as a name. */
  predicate ValidToken(s: string) { s != [] && ValidFirst(s[0]) && AllValid(s) }

  /** Lower-casing leaves valid characters alone. */
  ghost predicate KeepsValid(lower: Casing) { forall s :: AllValid(s) ==> lower(s) == s }

  /** The digest is made of hexadecimal digits. */
  ghost predicate HexDigest(digest: Digest) {
    forall s, i :: 0 <= i < |digest(s)| ==> '0' <= digest(s)[i] <= '9' || 'a' <= digest(s)[i] <= 'f'
  }

  function Cleaned(s: string): (r: string)
    ensures AllValid(r) && |r| <= |s| && (|r| == |s| <==> AllValid(s))
    ensures AllValid(s) ==> r == s
  {
    if s == [] then [] else
      var init := Cleaned(s[..|s| - 1]);
      assert AllValid(s) <==> AllValid(s[..|s| - 1]) && ValidChar(s[|s| - 1]);
      if ValidChar(s[|s| - 1]) then init + [s[|s| - 1]] else init
  }

  /** The token of a name: itself when it is valid already, otherwise its valid part with a digest of the whole. */
  function Token(lower: Casing, digest: Digest, raw: string): string {
    var cleaned := Cleaned(lower(raw));
    if ValidToken(raw) then raw
    else if cleaned == [] then "x-" + digest(raw)
    else if !ValidFirst(cleaned[0]) then "x" + cleaned + "-" + digest(raw)
    else cleaned + "-" + digest(raw)
  }

  lemma CleanedStep(s: string, i: nat)
    requires i < |s|
    ensures Cleaned(s[..i + 1]) == Cleaned(s[..i]) + if ValidChar(s[i]) then [s[i]] else []
    ensures AllValid(s[..i + 1]) <==> AllValid(s[..i]) && ValidChar(s[i])
  {
    assert s[..i + 1][..i] == s[..i] && s[..i + 1][i] == s[i];
    assert s[..i + 1] == s[..i] + [s[i]];
  }

  /** The characters that survive, and whether any were lost. */
  method Clean(lowered: string) returns (cleaned: string, lossy: bool)
    ensures cleaned == Cleaned(lowered) && (lossy <==> !AllValid(lowered))
  {
    cleaned, lossy := "", false;
    for i := 0 to |lowered|
      invariant cleaned == Cleaned(lowered[..i]) && (lossy <==> !AllValid(lowered[..i]))
    {
      CleanedStep(lowered, i);
      if ValidChar(lowered[i]) { cleaned := cleaned + [lowered[i]]; } else { lossy := true; }
    }
    assert lowered[..|lowered|] == lowered;
  }

  method SanitizeName(lower: Casing, digest: Digest, raw: string) returns (r: string)
    requires KeepsValid(lower)
    ensures r == Token(lower, digest, raw)
  {
    var lowered := lower(raw);
    var cleaned, lossy := Clean(lowered);
    lossy := lossy || lowered != raw;
    if cleaned == "" {
      lossy := true;
    } else if !ValidFirst(cleaned[0]) {
      cleaned := "x" + cleaned;
      lossy := true;
    }
    if !lossy { return cleaned; }
    return (if cleaned == "" then "x" else cleaned) + "-" + digest(raw);
  }

  lemma ValidConcat(a: string, b: string)
    requires ValidToken(a) && AllValid(b)
    ensures ValidToken(a + b)
  {
    assert (a + b)[0] == a[0];
  }

  /** Always a valid token, itself exactly for valid tokens, and hence settled after one application. */
  lemma TokensAreValid(lower: Casing, digest: Digest, raw: string)
    requires HexDigest(digest)
    ensures ValidToken(Token(lower, digest, raw))
    ensures Token(lower, digest, raw) == raw <==> ValidToken(raw)
    ensures Token(lower, digest, Token(lower, digest, raw)) == Token(lower, digest, raw)
  {
    var cleaned, tail := Cleaned(lower(raw)), "-" + digest(raw);
    assert AllValid(tail);
    if ValidToken(raw) {
    } else if cleaned == [] {
      ValidConcat("x", tail);
      assert "x-" + digest(raw) == "x" + tail;
    } else if !ValidFirst(cleaned[0]) {
      ValidConcat("x", cleaned);
      ValidConcat("x" + cleaned, tail);
      assert "x" + cleaned + "-" + digest(raw) == "x" + cleaned + tail;
    } else {
      ValidConcat(cleaned, tail);
      assert cleaned + "-" + digest(raw) == cleaned + tail;
    }
  }

  // ------------------------------------------------------------------------
  // Three derivations of one reference
  // ------------------------------------------------------------------------

  function NetworkName(project: string, instance: string): string {
    "odoo-forge-" + project + "-" + instance
  }

  function DeriveInstanceRef(lower: Casing, digest: Digest, name: string, instance: string): InstanceRef {
    var key := Key(Token(lower, digest, name), Token(lower, digest, instance));
    var network := NetworkName(key.project, key.instance);
    InstanceRef(key, network, network + "-db", network + "-odoo")
  }

  /** The names of a backend plan; its network labels carry project and instance. */
  function PlanBackend(lower: Casing, digest: Digest, name: string, instance: string, hasCredentials: bool): Plan {
    var ref := DeriveInstanceRef(lower, digest, name, instance);
    var pgdata, filestore := ref.network + "-pgdata", ref.network + "-filestore";
    Plan(ref.key, ref.network, [pgdata, filestore], pgdata, ref.postgres, ref.odoo, Some(filestore), hasCredentials)
  }

  function InstanceRefOf(plan: Plan): InstanceRef {
    InstanceRef(plan.key, plan.network, plan.postgres, plan.odoo)
  }

  datatype Handle = Handle(project: string, instance: string, kind: string, identifier: string)

  /** The reconciler: the record's own names, provided its identifier is the network they lead to. */
  function ReconciledRef(lower: Casing, digest: Digest, r: Handle): Option<InstanceRef> {
    var network := NetworkName(Token(lower, digest, r.project), Token(lower, digest, r.instance));
    if r.kind != "instance" || r.identifier != network
    then None
    else Some(InstanceRef(Key(r.project, r.instance), r.identifier, r.identifier + "-db", r.identifier + "-odoo"))
  }

  /**
   The reference is the same wherever it is derived.  The reconciler gives it for
   a record of the instance exactly when the record's names are valid tokens, and
   gives a record with other names a reference that nothing else derives.
   */
  lemma ReferencesAgree(lower: Casing, digest: Digest, r: Handle, hasCredentials: bool)
    requires HexDigest(digest)
    ensures InstanceRefOf(PlanBackend(lower, digest, r.project, r.instance, hasCredentials))
         == DeriveInstanceRef(lower, digest, r.project, r.instance)
    ensures ReconciledRef(lower, digest, r).Some? ==>
      (ValidToken(r.project) && ValidToken(r.instance) <==>
        ReconciledRef(lower, digest, r).value == DeriveInstanceRef(lower, digest, r.project, r.instance))
  {
    TokensAreValid(lower, digest, r.project);
    TokensAreValid(lower, digest, r.instance);
  }

  /** A record written from a derived reference is reconciled to that very reference. */
  lemma RecordedReferenceIsReconciled(lower: Casing, digest: Digest, name: string, instance: string)
    requires HexDigest(digest)
    ensures var ref := DeriveInstanceRef(lower, digest, name, instance);
      ReconciledRef(lower, digest, Handle(ref.key.project, ref.key.instance, "instance", ref.network)) == Some(ref)
  {
    TokensAreValid(lower, digest, name);
    TokensAreValid(lower, digest, instance);
  }

  /** A planned backend is one that `Destroy` can take down again through its reference. */
  lemma PlannedBackendIsDestroyable(lower: Casing, digest: Digest, name: string, instance: string, receipt: Receipt)
    requires receipt.owned == {
      Pgdata(DeriveInstanceRef(lower, digest, name, instance)),
      Container(DeriveInstanceRef(lower, digest, name, instance).postgres)}
    ensures PlannedFor(DeriveInstanceRef(lower, digest, name, instance),
      PlanBackend(lower, digest, name, instance, true), Provisioned("db", receipt, true))
  {
    var ref := DeriveInstanceRef(lower, digest, name, instance);
    assert ref.postgres[|ref.network| + 1] == 'd' && ref.odoo[|ref.network| + 1] == 'o';
  }

  /** What `Destroy` accepts as an identifier. */
  predicate SafeIdentifier(s: string) { ValidToken(s) && |s| <= 128 }

  /**
   A derived reference passes the identifier check of `Destroy` exactly when its
   longest name fits: a long project and instance can be run, but not destroyed.
   */
  lemma ReferenceIsSafeIff(lower: Casing, digest: Digest, name: string, instance: string)
    requires HexDigest(digest)
    ensures var ref := DeriveInstanceRef(lower, digest, name, instance);
      SafeIdentifier(ref.network) && SafeIdentifier(ref.postgres) && SafeIdentifier(ref.odoo) <==>
        |Token(lower, digest, name)| + |Token(lower, digest, instance)| <= 111
  {
    TokensAreValid(lower, digest, name);
    TokensAreValid(lower, digest, instance);
    var p, i := Token(lower, digest, name), Token(lower, digest, instance);
    var network := NetworkName(p, i);
    ValidConcat("odoo-forge-", p);
    ValidConcat("odoo-forge-" + p, "-");
    ValidConcat("odoo-forge-" + p + "-", i);
    ValidConcat(network, "-db");
    ValidConcat(network, "-odoo");
  }

  // ------------------------------------------------------------------------
  // Networks of different instances
  // ------------------------------------------------------------------------

  /** Token boundaries are not marked: two instances of two projects can be given one network. */
  lemma NetworksCanCoincide(lower: Casing, digest: Digest)
    ensures DeriveInstanceRef(lower, digest, "a-b", "c").network == DeriveInstanceRef(lower, digest, "a", "b-c").network
    ensures DeriveInstanceRef(lower, digest, "a-b", "c") != DeriveInstanceRef(lower, digest, "a", "b-c")
  {
    assert ValidToken("a-b") && ValidToken("c") && ValidToken("a") && ValidToken("b-c");
    assert NetworkName("a-b", "c") == "odoo-forge-a-b-c" == NetworkName("a", "b-c");
  }

  function UpToDash(s: string): string {
    if s == [] || s[0] == '-' then [] else [s[0]] + UpToDash(s[1..])
  }

  lemma {:induction false} UpToDashIs(a: string, x: string)
    requires '-' !in a
    ensures UpToDash(a + "-" + x) == a
    decreases |a|
  {
    var s := a + "-" + x;
    if a != [] {
      assert s[1..] == a[1..] + "-" + x;
      UpToDashIs(a[1..], x);
    }
  }

  ghost predicate CanCoincide(p: string, q: string) {
    exists i, j :: ValidToken(i) && ValidToken(j) && NetworkName(p, i) == NetworkName(q, j)
  }

  /** `q` goes on after `p` with a dash and another token. */
  ghost predicate Continues(p: string, q: string) {
    exists x :: ValidToken(x) && q == p + "-" + x
  }

  lemma NetworkNameIs(p: string, i: string)
    ensures NetworkName(p, i) == "odoo-forge-" + (p + "-" + i)
  {
  }

  /** Two equal texts, one cut by a dash earlier than the other: the later part goes on from the earlier. */
  lemma EarlierDash(p: string, i: string, q: string, j: string)
    requires p + "-" + i == q + "-" + j && |p| < |q|
    ensures q == p + "-" + q[|p| + 1..]
    ensures i == q[|p| + 1..] + "-" + j
  {
    var s, t := p + "-" + i, q + "-" + j;
    assert '-' == t[|q|] == s[|q|] == i[|q| - |p| - 1];
    assert j == t[|q| + 1..] == s[|q| + 1..] == i[|q| - |p|..];
    assert i == i[..|q| - |p| - 1] + [i[|q| - |p| - 1]] + i[|q| - |p|..];
    assert p == s[..|p|] == t[..|p|] == q[..|p|];
    assert q[|p|] == t[|p|] == s[|p|] == '-';
    assert q[|p| + 1..] == t[|p| + 1..|q|] == s[|p| + 1..|q|] == i[..|q| - |p| - 1];
    assert q == q[..|p|] + [q[|p|]] + q[|p| + 1..];
  }

  /** `q` takes over the beginning of `i`, up to a dash. */
  ghost predicate Shifted(p: string, i: string, q: string, j: string) {
    exists x :: ValidToken(x) && q == p + "-" + x && i == x + "-" + j
  }

  lemma LongerProjectIsShifted(p: string, i: string, q: string, j: string)
    requires ValidToken(p) && ValidToken(i) && ValidToken(q) && ValidToken(j)
    requires NetworkName(p, i) == NetworkName(q, j) && |p| < |q|
    ensures Shifted(p, i, q, j)
  {
    NetworkNameIs(p, i);
    NetworkNameIs(q, j);
    var prefix, s, t := "odoo-forge-", p + "-" + i, q + "-" + j;
    assert s == (prefix + s)[|prefix|..] && t == (prefix + t)[|prefix|..];
    EarlierDash(p, i, q, j);
    var x := q[|p| + 1..];
    assert x != [] by { assert ValidFirst(i[0]); }
    assert x[0] == i[0];
    assert AllValid(x);
  }

  lemma ShiftedShares(p: string, i: string, q: string, j: string)
    requires Shifted(p, i, q, j)
    ensures NetworkName(p, i) == NetworkName(q, j)
  {
    var x :| ValidToken(x) && q == p + "-" + x && i == x + "-" + j;
    NetworkNameIs(p, i);
    NetworkNameIs(q, j);
    assert p + "-" + (x + "-" + j) == (p + "-" + x) + "-" + j;
  }

  lemma SameLengthSameInstance(p: string, i: string, q: string, j: string)
    requires NetworkName(p, i) == NetworkName(q, j) && |p| == |q|
    ensures p == q && i == j
  {
    NetworkNameIs(p, i);
    NetworkNameIs(q, j);
    var prefix := "odoo-forge-";
    assert p + "-" + i == NetworkName(p, i)[|prefix|..] == q + "-" + j;
    assert p == (p + "-" + i)[..|p|] && q == (q + "-" + j)[..|q|];
    assert i == (p + "-" + i)[|p| + 1..] && j == (q + "-" + j)[|q| + 1..];
  }

  /** Exactly when two instances share a network: they are the same, or one name is the other with the cut moved. */
  lemma SameNetworkIff(p: string, i: string, q: string, j: string)
    requires ValidToken(p) && ValidToken(i) && ValidToken(q) && ValidToken(j)
    ensures NetworkName(p, i) == NetworkName(q, j) <==>
      (p == q && i == j) || Shifted(p, i, q, j) || Shifted(q, j, p, i)
  {
    if NetworkName(p, i) == NetworkName(q, j) {
      if |p| < |q| {
        LongerProjectIsShifted(p, i, q, j);
      } else if |q| < |p| {
        LongerProjectIsShifted(q, j, p, i);
      } else {
        SameLengthSameInstance(p, i, q, j);
      }
    }
    if Shifted(p, i, q, j) { ShiftedShares(p, i, q, j); }
    if Shifted(q, j, p, i) { ShiftedShares(q, j, p, i); }
  }

  lemma ContinuationCoincides(p: string, q: string)
    requires Continues(p, q)
    ensures CanCoincide(p, q) && CanCoincide(q, p)
  {
    var x :| ValidToken(x) && q == p + "-" + x;
    ValidConcat(x, "-a");
    assert x + "-a" == x + "-" + "a";
    ShiftedShares(p, x + "-a", q, "a");
  }

  /** Two projects can be given one network exactly when one of them continues the other. */
  lemma NetworksCanCoincideIff(p: string, q: string)
    requires ValidToken(p) && ValidToken(q) && p != q
    ensures CanCoincide(p, q) <==> Continues(p, q) || Continues(q, p)
  {
    if CanCoincide(p, q) {
      var i, j :| ValidToken(i) && ValidToken(j) && NetworkName(p, i) == NetworkName(q, j);
      SameNetworkIff(p, i, q, j);
    }
    if Continues(p, q) { ContinuationCoincides(p, q); }
    if Continues(q, p) { ContinuationCoincides(q, p); }
  }

  /** Projects without a dash keep their instances apart. */
  lemma UndashedProjectsKeepApart(p: string, i: string, q: string, j: string)
    requires '-' !in p && '-' !in q
    ensures NetworkName(p, i) == NetworkName(q, j) <==> p == q && i == j
  {
    var prefix := "odoo-forge-";
    assert NetworkName(p, i) == prefix + (p + "-" + i);
    assert NetworkName(q, j) == prefix + (q + "-" + j);
    if NetworkName(p, i) == NetworkName(q, j) {
      assert NetworkName(p, i)[|prefix|..] == p + "-" + i;
      assert NetworkName(q, j)[|prefix|..] == q + "-" + j;
      UpToDashIs(p, i);
      UpToDashIs(q, j);
      assert i == (p + "-" + i)[|p| + 1..] && j == (q + "-" + j)[|q| + 1..];
    }
  }
}

/** Box names, owner object names and owner labels: how config-server derives Kubernetes names
    from an authenticated identity (config-server/persistent.go). */
module Identity {
  import opened Strings

  predicate IsHex(c: char) { '0' <= c <= '9' || 'a' <= c <= 'f' }

  ghost predicate IsHexDigest(d: string) {
    |d| == 64 && forall c :: c in d ==> IsHex(c)
  }

  /** Hexadecimal SHA-256, known only by the shape of its output. Every result holds for every
      such function; where collisions matter, injectivity is a hypothesis of that result. */
  type Digest = f: string -> string | forall s :: IsHexDigest(f(s))
    witness (s: string) => seq(64, (_: int) => '0')

  function ShortHash(sha: Digest, value: string, length: nat): (h: string)
    requires length <= 64
    ensures |h| == length && forall c :: c in h ==> IsHex(c)
  {
    assert IsHexDigest(sha(value));
    sha(value)[..length]
  }

  const IDENTITY_SEP := "\0"

  function BoxPodName(sha: Digest, owner: string, template: string): string {
    "box-" + ShortHash(sha, owner + IDENTITY_SEP + template, 10)
  }

  /** The common name of one owner's ServiceAccount, Role and RoleBinding. */
  function OwnerObjectName(sha: Digest, owner: string): string {
    NameOfTrimmed(sha, TrimSpace(owner))
  }

  function NameOfTrimmed(sha: Digest, trimmed: string): string {
    "dev-box-owner-" + ShortHash(sha, trimmed, 48)
  }

  function ClaimName(pod: string, claim: string): string {
    pod + "-" + claim
  }

  /** Pod names all have the same length, so the pod and the claim can be read back from a PVC
      name: two boxes never share a retained claim, nor do two claims of one box. */
  lemma ClaimNameInjective(sha: Digest, o1: string, t1: string, c1: string, o2: string, t2: string, c2: string)
    requires ClaimName(BoxPodName(sha, o1, t1), c1) == ClaimName(BoxPodName(sha, o2, t2), c2)
    ensures BoxPodName(sha, o1, t1) == BoxPodName(sha, o2, t2) && c1 == c2
  {
    var p1, p2 := BoxPodName(sha, o1, t1), BoxPodName(sha, o2, t2);
    var n1, n2 := ClaimName(p1, c1), ClaimName(p2, c2);
    assert p1 == n1[..14] && p2 == n2[..14];
    assert c1 == n1[15..] && c2 == n2[15..];
  }

  /** A box name: the prefix and ten hexadecimal digits, fourteen bytes a DNS label may have. */
  lemma BoxNameShape(sha: Digest, owner: string, template: string)
    ensures var name := BoxPodName(sha, owner, template);
      |name| == 14 && name[..4] == "box-" && forall i :: 4 <= i < 14 ==> IsHex(name[i])
  {
    var h := ShortHash(sha, owner + IDENTITY_SEP + template, 10);
    hide ShortHash;
    forall i | 0 <= i < 10 ensures IsHex(h[i]) { assert h[i] in h; }
  }

  /** What a box name is the hash of; the pair can be read back, because a template name has no NUL. */
  function IdentityText(owner: string, template: string): string {
    owner + ['\0'] + template
  }

  lemma IdentityTextInjective(o1: string, t1: string, o2: string, t2: string)
    requires '\0' !in t1 && '\0' !in t2 && IdentityText(o1, t1) == IdentityText(o2, t2)
    ensures o1 == o2 && t1 == t2
  {
    var s := IdentityText(o1, t1);
    assert s[|o1|] == '\0' && s[|o2|] == '\0' && s[|o1| + 1..] == t1 && s[|o2| + 1..] == t2;
    NoLaterNul(o1, t1, |o2|);
    NoLaterNul(o2, t2, |o1|);
    assert o1 == s[..|o1|] && o2 == s[..|o2|];
  }

  lemma NoLaterNul(owner: string, template: string, n: nat)
    requires '\0' !in template
    ensures var s := IdentityText(owner, template);
      |owner| < n < |s| ==> s[n] != '\0'
  {
    var s := IdentityText(owner, template);
    if |owner| < n < |s| { assert s[n] == template[n - |owner| - 1]; }
  }

  /** Box names depend on owner and template both: if the ten-digit hash tells the identity texts of two
      boxes apart, equal names mean the same owner and the same template. */
  lemma BoxNamesSeparate(sha: Digest, o1: string, t1: string, o2: string, t2: string)
    requires '\0' !in t1 && '\0' !in t2
    requires sha(IdentityText(o1, t1))[..10] == sha(IdentityText(o2, t2))[..10] ==> IdentityText(o1, t1) == IdentityText(o2, t2)
    requires BoxPodName(sha, o1, t1) == BoxPodName(sha, o2, t2)
    ensures o1 == o2 && t1 == t2
  {
    assert forall s :: IsHexDigest(sha(s));
    assert BoxPodName(sha, o1, t1)[4..] == sha(IdentityText(o1, t1))[..10];
    assert BoxPodName(sha, o2, t2)[4..] == sha(IdentityText(o2, t2))[..10];
    IdentityTextInjective(o1, t1, o2, t2);
  }

  /** Owner objects depend on the trimmed owner, and only on it: two owners share their names exactly when
      they trim to the same text, if the 48-digit hash tells the trimmed owners apart. */
  lemma OwnerNamesSeparate(sha: Digest, a: string, b: string)
    requires sha(TrimSpace(a))[..48] == sha(TrimSpace(b))[..48] ==> TrimSpace(a) == TrimSpace(b)
    ensures OwnerObjectName(sha, a) == OwnerObjectName(sha, b) <==> TrimSpace(a) == TrimSpace(b)
    ensures |OwnerObjectName(sha, a)| == 62 && OwnerObjectName(sha, a)[..14] == "dev-box-owner-"
  {
    hide TrimSpace;
    assert OwnerObjectName(sha, a)[14..] == sha(TrimSpace(a))[..48];
    assert OwnerObjectName(sha, b)[14..] == sha(TrimSpace(b))[..48];
  }

  // ---- the owner label ----

  const LABEL_LIMIT := 63
  const HASH_SUFFIX := 8
  const MAX_CORE := LABEL_LIMIT - HASH_SUFFIX - 1

  predicate ValidLabel(s: string) {
    && 0 < |s| <= LABEL_LIMIT
    && IsAlnum(s[0]) && IsAlnum(s[|s| - 1])
    && forall c :: c in s ==> IsNameChar(c)
  }

  /** A byte that survives sanitization. A dash is kept too, but only as a separator. */
  predicate Survives(c: char) {
    IsAlnum(c) || c == '_' || c == '.'
  }

  function DashByte(c: char): char {
    if Survives(c) then c else '-'
  }

  function Dashed(s: string): (r: string)
    ensures |r| == |s|
  {
    if s == "" then "" else Dashed(s[..|s| - 1]) + [DashByte(s[|s| - 1])]
  }

  predicate EndsInDash(s: string) {
    s != "" && s[|s| - 1] == '-'
  }

  /** Append a byte, unless it would put a second dash after a dash. */
  function AppendOnce(b: string, c: char): string {
    if c == '-' && EndsInDash(b) then b else b + [c]
  }

  function CollapseDashes(s: string): string {
    if s == "" then "" else AppendOnce(CollapseDashes(s[..|s| - 1]), s[|s| - 1])
  }

  function TrimLeftDashes(s: string): string {
    if s != "" && s[0] == '-' then TrimLeftDashes(s[1..]) else s
  }

  function TrimRightDashes(s: string): (r: string)
    ensures |r| <= |s|
  {
    if EndsInDash(s) then TrimRightDashes(s[..|s| - 1]) else s
  }

  function TrimDashes(s: string): string {
    TrimRightDashes(TrimLeftDashes(s))
  }

  /** The readable part of a rewritten label. */
  function LabelCore(owner: string): string {
    var core := TrimDashes(CollapseDashes(Dashed(owner)));
    var short := if |core| > MAX_CORE then TrimRightDashes(core[..MAX_CORE]) else core;
    if short == "" then "owner" else short
  }

  function OwnerLabel(sha: Digest, owner: string): string {
    if ValidLabel(owner) then owner
    else LabelCore(owner) + ("-" + ShortHash(sha, owner, HASH_SUFFIX))
  }

  lemma CollapseNext(owner: string, i: nat)
    requires i < |owner|
    ensures CollapseDashes(Dashed(owner[..i + 1])) ==
            AppendOnce(CollapseDashes(Dashed(owner[..i])), DashByte(owner[i]))
  {
    var d := Dashed(owner[..i + 1]);
    assert owner[..i + 1][..i] == owner[..i];
    assert d[..|d| - 1] == Dashed(owner[..i]);
  }

  /** The source's loop over the bytes of the owner, carrying only the text built so far and
      whether its last byte is a dash, computes map-then-collapse. */
  method SanitizeBytes(owner: string) returns (b: string)
    ensures b == CollapseDashes(Dashed(owner))
  {
    var prevDash := false;
    b := "";
    for i := 0 to |owner|
      invariant b == CollapseDashes(Dashed(owner[..i]))
      invariant prevDash == EndsInDash(b)
    {
      CollapseNext(owner, i);
      var c := owner[i];
      if Survives(c) {
        b := b + [c];
        prevDash := false;
      } else if !prevDash {
        b := b + "-";
        prevDash := true;
      }
    }
    assert owner[..|owner|] == owner;
  }

  method OwnerLabelValue(sha: Digest, owner: string) returns (label_: string)
    ensures label_ == OwnerLabel(sha, owner)
  {
    var valid := IsValidLabelValue(owner);
    if valid { return owner; }
    hide CollapseDashes, Dashed, TrimLeftDashes, TrimRightDashes;
    var b := SanitizeBytes(owner);
    var core := TrimDashes(b);
    var suffix := "-" + ShortHash(sha, owner, HASH_SUFFIX);
    var maxCore := LABEL_LIMIT - |suffix|;
    if |core| > maxCore {
      core := TrimRightDashes(core[..maxCore]);
    }
    if core == "" {
      core := "owner";
    }
    label_ := core + suffix;
  }

  method IsValidLabelValue(s: string) returns (valid: bool)
    ensures valid == ValidLabel(s)
  {
    if |s| == 0 || |s| > LABEL_LIMIT { return false; }
    if !IsAlnum(s[0]) || !IsAlnum(s[|s| - 1]) { return false; }
    for i := 0 to |s|
      invariant forall k :: 0 <= k < i ==> IsNameChar(s[k])
    {
      if !IsNameChar(s[i]) { return false; }
    }
    return true;
  }

  // ---- what collapsing means, without reference to how it is computed ----

  function WithoutDashes(s: string): string {
    if s == "" then ""
    else WithoutDashes(s[..|s| - 1]) + if s[|s| - 1] == '-' then "" else [s[|s| - 1]]
  }

  ghost predicate NoDoubleDash(s: string) {
    forall i :: 0 <= i < |s| - 1 ==> !(s[i] == '-' && s[i + 1] == '-')
  }

  ghost predicate LabelBytes(s: string) {
    forall i :: 0 <= i < |s| ==> IsNameChar(s[i])
  }

  /** Collapsing leaves no two adjacent dashes, loses no other byte, keeps their order, and keeps
      a dash at the end exactly when there was one. */
  lemma {:induction false} CollapseMeaning(s: string)
    ensures var r := CollapseDashes(s);
      && NoDoubleDash(r)
      && WithoutDashes(r) == WithoutDashes(s)
      && (EndsInDash(r) <==> EndsInDash(s))
  {
    if s != "" {
      var init, c := s[..|s| - 1], s[|s| - 1];
      CollapseMeaning(init);
      var r := CollapseDashes(init);
      assert (r + [c])[..|r|] == r;
    }
  }

  lemma {:induction false} SanitizedBytes(s: string)
    ensures LabelBytes(CollapseDashes(Dashed(s)))
  {
    if s != "" {
      SanitizedBytes(s[..|s| - 1]);
      assert s[..|s|] == s;
      CollapseNext(s, |s| - 1);
    }
  }

  lemma {:induction false} TrimLeftTidies(s: string)
    requires NoDoubleDash(s) && LabelBytes(s)
    ensures var r := TrimLeftDashes(s);
      NoDoubleDash(r) && LabelBytes(r) && (r != "" ==> r[0] != '-')
  {
    if s != "" && s[0] == '-' { TrimLeftTidies(s[1..]); }
  }

  lemma {:induction false} TrimRightTidies(s: string)
    requires NoDoubleDash(s) && LabelBytes(s) && (s != "" ==> s[0] != '-')
    ensures var r := TrimRightDashes(s);
      && Tidy(r)
      && (r == "" <==> s == "")
      && (s != "" ==> r[0] == s[0])
  {
    if EndsInDash(s) { TrimRightTidies(s[..|s| - 1]); }
  }

  // ---- correctness of the label ----

  predicate Rewritten(owner: string) { !ValidLabel(owner) }

  /** Fit to stand before the hash: label bytes only, no outer dash, no two dashes in a row. */
  ghost predicate Tidy(s: string) {
    LabelBytes(s) && NoDoubleDash(s) && (s != "" ==> s[0] != '-') && !EndsInDash(s)
  }

  lemma TrimmedIsTidy(owner: string)
    ensures var left := TrimLeftDashes(CollapseDashes(Dashed(owner)));
      var core := TrimRightDashes(left);
      Tidy(core) && (core == "" <==> left == "") && (core != "" ==> core[0] == left[0])
  {
    CollapseMeaning(Dashed(owner));
    SanitizedBytes(owner);
    var r := CollapseDashes(Dashed(owner));
    TrimLeftTidies(r);
    TrimRightTidies(TrimLeftDashes(r));
  }

  lemma LabelCoreShape(owner: string)
    ensures var core := LabelCore(owner);
      0 < |core| <= MAX_CORE && Tidy(core)
    ensures var left := TrimLeftDashes(CollapseDashes(Dashed(owner)));
      LabelCore(owner)[0] == if left == "" then 'o' else left[0]
  {
    hide CollapseDashes, Dashed, TrimLeftDashes, TrimRightDashes;
    var core := TrimDashes(CollapseDashes(Dashed(owner)));
    TrimmedIsTidy(owner);
    if |core| > MAX_CORE {
      TrimRightTidies(core[..MAX_CORE]);
    }
  }

  /** Every label is at most 63 bytes of the label alphabet and ends alphanumeric, and an owner that
      is a valid label is left alone. */
  lemma OwnerLabelShape(sha: Digest, owner: string)
    ensures var l := OwnerLabel(sha, owner);
      && 0 < |l| <= LABEL_LIMIT
      && (forall c :: c in l ==> IsNameChar(c))
      && IsAlnum(l[|l| - 1])
      && (ValidLabel(owner) ==> l == owner)
  {
    if Rewritten(owner) {
      LabelCoreShape(owner);
      var core, h := LabelCore(owner), ShortHash(sha, owner, HASH_SUFFIX);
      var l := OwnerLabel(sha, owner);
      assert l[|l| - 1] == h[7] && h[7] in h;
      forall c | c in l ensures IsNameChar(c) {
        if c in core {
          var i :| 0 <= i < |core| && core[i] == c;
        } else if c != '-' { assert c in h; }
      }
    }
  }

  /** The first byte of the owner that survives, if any does. */
  function FirstSurvivor(owner: string): (r: string)
    ensures |r| <= 1
  {
    if owner == "" then ""
    else if Survives(owner[0]) then [owner[0]]
    else FirstSurvivor(owner[1..])
  }

  /** What survives of the core's front is decided by the first surviving byte of the owner. */
  lemma {:induction false} TrimmedStart(s: string, i: nat)
    requires i <= |s|
    ensures Front(TrimLeftDashes(CollapseDashes(Dashed(s[..i])))) == FirstSurvivor(s[..i])
  {
    hide Dashed, FirstSurvivor;
    if i > 0 {
      hide CollapseDashes, TrimLeftDashes;
      var before, c := s[..i - 1], s[i - 1];
      assert before + [c] == s[..i];
      TrimmedStart(s, i - 1);
      FirstSurvivorSnoc(before, c);
      CollapseNext(s, i - 1);
      FrontAfter(CollapseDashes(Dashed(before)), c);
    } else {
      NothingTrimmed();
      assert s[..0] == "";
    }
  }

  lemma NothingTrimmed()
    ensures Front(TrimLeftDashes(CollapseDashes(Dashed("")))) == FirstSurvivor("")
  {}

  /** One more byte decides the front only if there was none. */
  lemma FrontAfter(b: string, c: char)
    ensures var front := Front(TrimLeftDashes(b));
      Front(TrimLeftDashes(AppendOnce(b, DashByte(c)))) == if front != "" then front else if Survives(c) then [c] else ""
  {
    hide TrimLeftDashes;
    TrimLeftSnoc(b, DashByte(c));
  }

  function Front(s: string): string {
    if s == "" then "" else [s[0]]
  }

  lemma {:induction false} FirstSurvivorSnoc(s: string, c: char)
    ensures FirstSurvivor(s + [c]) ==
            if FirstSurvivor(s) != "" then FirstSurvivor(s) else if Survives(c) then [c] else ""
  {
    if s != "" {
      FirstSurvivorSnoc(s[1..], c);
      assert (s + [c])[1..] == s[1..] + [c];
    }
  }

  lemma {:induction false} TrimLeftSnoc(s: string, c: char)
    ensures TrimLeftDashes(s + [c]) ==
            if TrimLeftDashes(s) != "" then TrimLeftDashes(s) + [c] else if c != '-' then [c] else ""
  {
    if s != "" {
      TrimLeftSnoc(s[1..], c);
      assert (s + [c])[1..] == s[1..] + [c];
    }
  }

  /** The exact condition under which a label is one Kubernetes accepts. Sanitizing trims dashes
      only, so an owner whose first surviving byte is '.' or '_' gets a label the API refuses. */
  lemma OwnerLabelValidity(sha: Digest, owner: string)
    ensures ValidLabel(OwnerLabel(sha, owner)) <==>
            ValidLabel(owner) || FirstSurvivor(owner) == "" || IsAlnum(FirstSurvivor(owner)[0])
  {
    if Rewritten(owner) {
      OwnerLabelShape(sha, owner);
      LabelCoreShape(owner);
      TrimmedStart(owner, |owner|);
      assert owner[..|owner|] == owner;
      assert OwnerLabel(sha, owner)[0] == LabelCore(owner)[0];
    }
  }

  /** '.' alone is such an owner. */
  lemma DotOwnerHasInvalidLabel(sha: Digest)
    ensures !ValidLabel(OwnerLabel(sha, "."))
  {
    assert FirstSurvivor(".") == ".";
    OwnerLabelValidity(sha, ".");
  }

  // ---- quota separation ----

  ghost predicate HashSeparates(sha: Digest, owners: set<string>) {
    forall a, b :: a in owners && b in owners && a != b ==>
      ShortHash(sha, a, HASH_SUFFIX) != ShortHash(sha, b, HASH_SUFFIX)
  }

  lemma RewrittenEndsInHash(sha: Digest, owner: string)
    requires Rewritten(owner)
    ensures var l := OwnerLabel(sha, owner);
      |l| >= HASH_SUFFIX && l[|l| - HASH_SUFFIX..] == ShortHash(sha, owner, HASH_SUFFIX)
  {
    hide LabelCore, ShortHash;
    var core, h := LabelCore(owner), ShortHash(sha, owner, HASH_SUFFIX);
    assert (core + ("-" + h))[|core| + 1..] == h;
  }

  /** When the short hash separates the owners concerned, two of them share a label, and with it a
      box quota, exactly when one is kept verbatim and spells the other's rewritten label. So two
      owners that are both verbatim, or both rewritten, never share one. */
  lemma QuotaSeparation(sha: Digest, owners: set<string>, a: string, b: string)
    requires HashSeparates(sha, owners) && a in owners && b in owners && a != b
    ensures OwnerLabel(sha, a) == OwnerLabel(sha, b) <==>
      || (ValidLabel(a) && Rewritten(b) && a == OwnerLabel(sha, b))
      || (ValidLabel(b) && Rewritten(a) && b == OwnerLabel(sha, a))
  {
    hide LabelCore, ShortHash;
    if Rewritten(a) && Rewritten(b) {
      RewrittenEndsInHash(sha, a);
      RewrittenEndsInHash(sha, b);
      assert ShortHash(sha, a, HASH_SUFFIX) != ShortHash(sha, b, HASH_SUFFIX);
    }
  }

  /** The exception is reachable from every rewritten owner that got an acceptable label: the owner
      spelled like that label is a different identity with the same quota. */
  lemma MixedOwnersCanShareQuota(sha: Digest, a: string)
    requires Rewritten(a)
    requires FirstSurvivor(a) == "" || IsAlnum(FirstSurvivor(a)[0])
    ensures var b := OwnerLabel(sha, a);
      b != a && OwnerLabel(sha, b) == OwnerLabel(sha, a)
  {
    OwnerLabelValidity(sha, a);
  }

  // ---- a check on single owners that keeps quotas apart ----

  /** A dash and the short hash at the end of something that can stand before them. */
  ghost predicate SpellsALabel(s: string) {
    var n := |s| - HASH_SUFFIX - 1;
    && 0 < n <= MAX_CORE && s[n] == '-'
    && (forall i :: n < i < |s| ==> IsHex(s[i]))
    && Tidy(s[..n])
  }

  lemma RewrittenSpellsALabel(sha: Digest, owner: string)
    requires Rewritten(owner)
    ensures SpellsALabel(OwnerLabel(sha, owner))
  {
    hide LabelCore, ShortHash, Tidy;
    LabelCoreShape(owner);
    var core, h := LabelCore(owner), ShortHash(sha, owner, HASH_SUFFIX);
    var l := OwnerLabel(sha, owner);
    hide OwnerLabel;
    assert l == core + ("-" + h);
    LabelPieces(core, h, l);
  }

  lemma LabelPieces(core: string, h: string, l: string)
    requires l == core + ("-" + h) && |h| == HASH_SUFFIX && 0 < |core| <= MAX_CORE && Tidy(core) && forall c :: c in h ==> IsHex(c)
    ensures SpellsALabel(l)
  {
    hide Tidy;
    assert l[..|core|] == core && l[|core|] == '-';
    forall i | |core| < i < |l| ensures IsHex(l[i]) { assert l[i] == h[i - |core| - 1] && h[i - |core| - 1] in h; }
  }

  /** If no owner that is kept verbatim looks like a rewritten label, a property of each owner on its own,
      then all labels are distinct. */
  lemma QuotasKeptApart(sha: Digest, owners: set<string>, a: string, b: string)
    requires HashSeparates(sha, owners) && a in owners && b in owners && a != b
    requires forall o :: o in owners && ValidLabel(o) ==> !SpellsALabel(o)
    ensures OwnerLabel(sha, a) != OwnerLabel(sha, b)
  {
    hide SpellsALabel, OwnerLabel;
    QuotaSeparation(sha, owners, a, b);
    if Rewritten(a) { RewrittenSpellsALabel(sha, a); }
    if Rewritten(b) { RewrittenSpellsALabel(sha, b); }
  }

  lemma {:induction false} TidyIsKept(s: string)
    requires LabelBytes(s) && NoDoubleDash(s)
    ensures CollapseDashes(Dashed(s)) == s
  {
    if s != "" {
      hide CollapseDashes, Dashed;
      var init, c := s[..|s| - 1], s[|s| - 1];
      TidyIsKept(init);
      CollapseNext(s, |s| - 1);
      assert s[..|s|] == s;
      hide LabelBytes, NoDoubleDash;
      TidyStep(s);
    }
  }

  lemma TidyStep(s: string)
    requires s != "" && LabelBytes(s) && NoDoubleDash(s)
    ensures AppendOnce(s[..|s| - 1], DashByte(s[|s| - 1])) == s
  {
    var init, c := s[..|s| - 1], s[|s| - 1];
    assert init + [c] == s && DashByte(c) == c;
  }

  /** An owner that is rewritten to this core. */
  lemma CoreOfBanged(core: string)
    requires Tidy(core) && 0 < |core| <= MAX_CORE
    ensures Rewritten(core + "!") && LabelCore(core + "!") == core
  {
    var owner := core + "!";
    BangIsTrimmed(core);
    assert owner[|owner| - 1] == '!' && !IsAlnum('!');
  }

  lemma BangIsTrimmed(core: string)
    requires Tidy(core) && core != ""
    ensures TrimDashes(CollapseDashes(Dashed(core + "!"))) == core
  {
    hide CollapseDashes, Dashed;
    var owner := core + "!";
    TidyIsKept(core);
    CollapseNext(owner, |core|);
    assert owner[..|core|] == core && owner[..|core| + 1] == owner;
    assert CollapseDashes(Dashed(owner)) == core + "-";
    DashIsTrimmed(core);
  }

  lemma DashIsTrimmed(core: string)
    requires Tidy(core) && core != ""
    ensures TrimDashes(core + "-") == core
  {
    var s := core + "-";
    assert s[..|core|] == core && TrimLeftDashes(s) == s;
    assert TrimRightDashes(core) == core;
  }

  /** A hash function that gives one owner a digest of its own. */
  function Rigged(owner: string, digest: string, other: string): Digest
    requires IsHexDigest(digest) && IsHexDigest(other)
  {
    (s: string) => if s == owner then digest else other
  }

  function Zeros(n: nat): (z: string)
    ensures |z| == n && forall i :: 0 <= i < n ==> z[i] == '0'
  {
    if n == 0 then "" else Zeros(n - 1) + "0"
  }

  /** The check asks for no more than it must: an owner kept verbatim is the label of some other owner, under
      some hash that tells the two apart, exactly when it looks like one. */
  lemma SpelledLabelsCollide(a: string) returns (sha: Digest, b: string)
    requires ValidLabel(a)
    ensures SpellsALabel(a) ==> Rewritten(b) && OwnerLabel(sha, b) == a && HashSeparates(sha, {a, b})
    ensures !SpellsALabel(a) ==> forall o, f: Digest :: Rewritten(o) ==> OwnerLabel(f, o) != a
  {
    sha, b := Rigged("", Zeros(64), Zeros(64)), "";
    if SpellsALabel(a) {
      var n := |a| - HASH_SUFFIX - 1;
      assert a == a[..n] + ("-" + a[n + 1..]);
      sha, b := CollidingOwner(a[..n], a[n + 1..]);
      hide OwnerLabel, SpellsALabel;
    } else {
      hide OwnerLabel, SpellsALabel;
      forall o, f: Digest | Rewritten(o) ensures OwnerLabel(f, o) != a { RewrittenSpellsALabel(f, o); }
    }
  }

  lemma CollidingOwner(core: string, h: string) returns (sha: Digest, b: string)
    requires Tidy(core) && 0 < |core| <= MAX_CORE && |h| == HASH_SUFFIX && forall c :: c in h ==> IsHex(c)
    ensures Rewritten(b) && OwnerLabel(sha, b) == core + ("-" + h) && HashSeparates(sha, {core + ("-" + h), b})
  {
    hide LabelCore, Tidy, OwnerLabel;
    b := core + "!";
    CoreOfBanged(core);
    sha := RiggedFor(b, h);
    LabelOf(sha, b, core, h);
  }

  /** A hash function that gives `b` this short hash, and everything else another. */
  lemma RiggedFor(b: string, h: string) returns (sha: Digest)
    requires |h| == HASH_SUFFIX && forall c :: c in h ==> IsHex(c)
    ensures sha(b)[..HASH_SUFFIX] == h
    ensures forall a :: HashSeparates(sha, {a, b})
  {
    var first := if h[0] == '0' then "10000000" else "00000000";
    assert h != first;
    PaddedIsDigest(h);
    PaddedIsDigest(first);
    var digest, other := h + Zeros(56), first + Zeros(56);
    hide IsHexDigest;
    sha := Rigged(b, digest, other);
    forall a ensures HashSeparates(sha, {a, b}) { RiggedSeparates(b, digest, other, a); }
  }

  lemma PaddedIsDigest(h: string)
    requires |h| == HASH_SUFFIX && forall c :: c in h ==> IsHex(c)
    ensures IsHexDigest(h + Zeros(56)) && (h + Zeros(56))[..HASH_SUFFIX] == h
  {}

  lemma RiggedSeparates(b: string, digest: string, other: string, a: string)
    requires IsHexDigest(digest) && IsHexDigest(other) && digest[..HASH_SUFFIX] != other[..HASH_SUFFIX]
    ensures HashSeparates(Rigged(b, digest, other), {a, b})
  {
    RiggedShort(b, digest, other, a);
    RiggedShort(b, digest, other, b);
    hide Rigged, ShortHash, IsHexDigest;
  }

  lemma RiggedShort(b: string, digest: string, other: string, s: string)
    requires IsHexDigest(digest) && IsHexDigest(other)
    ensures ShortHash(Rigged(b, digest, other), s, HASH_SUFFIX) == (if s == b then digest else other)[..HASH_SUFFIX]
  {
    hide IsHexDigest;
  }

  lemma LabelOf(sha: Digest, owner: string, core: string, h: string)
    requires Rewritten(owner) && LabelCore(owner) == core && |h| == HASH_SUFFIX && sha(owner)[..HASH_SUFFIX] == h
    ensures OwnerLabel(sha, owner) == core + ("-" + h)
  {
    hide LabelCore;
  }

  // ---- the readable part of a label, word by word ----

  /** The maximal runs of surviving bytes, in order. */
  function Words(s: string): (words: seq<string>)
    ensures s != "" && Survives(s[|s| - 1]) ==> words != []
  {
    if s == "" then []
    else
      var init, c := s[..|s| - 1], s[|s| - 1];
      var before := Words(init);
      if !Survives(c) then before
      else if init != "" && Survives(init[|init| - 1]) then before[..|before| - 1] + [before[|before| - 1] + [c]]
      else before + [[c]]
  }

  /** The words joined by dashes, with one more dash if something that does not survive follows them. */
  function Spelled(s: string): string {
    Join(Words(s), '-') + if Words(s) != [] && !Survives(s[|s| - 1]) then "-" else ""
  }

  lemma {:induction false} JoinExtendsLast(words: seq<string>, c: char)
    requires words != []
    ensures Join(words[..|words| - 1] + [words[|words| - 1] + [c]], '-') == Join(words, '-') + [c]
  {
    if |words| == 1 {
      assert words[..0] + [words[0] + [c]] == [words[0] + [c]];
    } else {
      var more := words[..|words| - 1] + [words[|words| - 1] + [c]];
      JoinExtendsLast(words[1..], c);
      assert more[1..] == words[1..][..|words| - 2] + [words[1..][|words| - 2] + [c]];
      assert more[0] == words[0];
    }
  }

  lemma {:induction false} JoinAppends(words: seq<string>, w: string)
    requires words != []
    ensures Join(words + [w], '-') == Join(words, '-') + "-" + w
  {
    var more := words + [w];
    if |words| == 1 {
      assert more[1..] == [w];
    } else {
      JoinAppends(words[1..], w);
      assert more[1..] == words[1..] + [w];
    }
  }

  predicate IsWord(w: string) {
    w != "" && forall c :: c in w ==> Survives(c)
  }

  ghost predicate AllWords(words: seq<string>) {
    forall i :: 0 <= i < |words| ==> IsWord(words[i])
  }

  /** No word is empty, and every byte of a word survives. */
  lemma {:induction false} WordsSurvive(s: string)
    ensures AllWords(Words(s))
  {
    if s != "" {
      var init, c := s[..|s| - 1], s[|s| - 1];
      WordsSurvive(init);
      var before := Words(init);
      if before != [] && Survives(c) {
        var w := before[|before| - 1];
        assert IsWord(w) && IsWord(w + [c]);
      }
      assert Survives(c) ==> IsWord([c]);
    }
  }

  lemma {:induction false} JoinStartsAndEnds(words: seq<string>)
    requires words != [] && AllWords(words)
    ensures var j := Join(words, '-');
      j != "" && j[0] != '-' && j[|j| - 1] != '-'
  {
    if |words| == 1 {
      assert words[0][0] in words[0] && words[0][|words[0]| - 1] in words[0];
    } else {
      JoinStartsAndEnds(words[1..]);
      assert words[0][0] in words[0];
    }
  }

  lemma SpelledNext(s: string, c: char)
    ensures Spelled(s + [c]) ==
      var before := Spelled(s);
      if Survives(c) then before + [c] else if before != "" && before[|before| - 1] != '-' then before + "-" else before
  {
    var now := s + [c];
    assert now[..|s|] == s && now[|s|] == c;
    WordsSurvive(s);
    var words := Words(s);
    if words != [] { JoinStartsAndEnds(words); }
    hide Join;
    if Survives(c) {
      if s != "" && Survives(s[|s| - 1]) {
        JoinExtendsLast(words, c);
      } else if words != [] {
        JoinAppends(words, [c]);
      } else {
        JoinOne([c]);
        JoinNone();
      }
    } else if words == [] {
      JoinNone();
    }
  }

  lemma JoinOne(w: string)
    ensures Join([w], '-') == w
  {}

  lemma JoinNone()
    ensures Join([], '-') == ""
  {}

  lemma {:induction false} TrimmedIsSpelled(owner: string, i: nat)
    requires i <= |owner|
    ensures TrimLeftDashes(CollapseDashes(Dashed(owner[..i]))) == Spelled(owner[..i])
  {
    if i == 0 {
      NothingIsSpelled();
      assert owner[..0] == "";
    } else {
      var before, c := owner[..i - 1], owner[i - 1];
      TrimmedIsSpelled(owner, i - 1);
      hide Dashed, CollapseDashes, Spelled, TrimLeftDashes;
      assert owner[..i] == before + [c];
      CollapseNext(owner, i - 1);
      TrimmedNext(CollapseDashes(Dashed(before)), c);
      SpelledNext(before, c);
    }
  }

  lemma NothingIsSpelled()
    ensures TrimLeftDashes(CollapseDashes(Dashed(""))) == Spelled("")
  {
    JoinNone();
  }

  lemma {:induction false} EndKept(b: string)
    ensures var t := TrimLeftDashes(b);
      t != "" ==> b != "" && t[|t| - 1] == b[|b| - 1]
    ensures TrimLeftDashes(b) == "" && b != "" ==> b[|b| - 1] == '-'
  {
    if b != "" && b[0] == '-' { EndKept(b[1..]); }
  }

  lemma TrimmedNext(b: string, c: char)
    ensures TrimLeftDashes(AppendOnce(b, DashByte(c))) ==
      var before := TrimLeftDashes(b);
      if Survives(c) then before + [c] else if before != "" && before[|before| - 1] != '-' then before + "-" else before
  {
    EndKept(b);
    TrimLeftSnoc(b, DashByte(c));
    hide TrimLeftDashes;
  }

  /** The core of a rewritten label, from the owner's words: "owner" if there are none, else the words
      joined by single dashes, cut to 54 bytes, less the dash the cut may leave at the end. */
  lemma LabelCoreIsWords(owner: string)
    ensures var text := Join(Words(owner), '-');
      LabelCore(owner) ==
        if Words(owner) == [] then "owner"
        else if |text| <= 54 then text
        else if text[53] == '-' then text[..53]
        else text[..54]
  {
    TrimmedIsSpelled(owner, |owner|);
    assert owner[..|owner|] == owner;
    TrimmedIsTidy(owner);
    WordsSurvive(owner);
    var words := Words(owner);
    var text := Join(words, '-');
    hide CollapseDashes, Dashed, TrimLeftDashes, Join, Words;
    if words == [] {
      JoinNone();
    } else {
      JoinStartsAndEnds(words);
      SpelledTrims(text, Spelled(owner));
      CutTrims(text);
    }
  }

  lemma SpelledTrims(text: string, spelled: string)
    requires text != "" && text[|text| - 1] != '-' && (spelled == text || spelled == text + "-")
    ensures TrimRightDashes(spelled) == text
  {
    assert (text + "-")[..|text|] == text;
    assert TrimRightDashes(text) == text;
  }

  lemma CutTrims(text: string)
    requires NoDoubleDash(text)
    ensures |text| > 54 ==> TrimRightDashes(text[..54]) == if text[53] == '-' then text[..53] else text[..54]
  {
    if |text| > 54 && text[53] == '-' {
      assert text[..54][..53] == text[..53] && text[52] != '-';
      assert TrimRightDashes(text[..53]) == text[..53];
    }
  }
}

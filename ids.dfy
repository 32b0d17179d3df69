/**
 The identifier builder: sandbox and container IDs are plain `_`-joined
 renderings of the request metadata, with the attempt counter written in
 decimal (Go's `%d`). Because the IDs are the registry keys, recomputing them
 from equal metadata finds the same entry again.
 */
module Ids {
  import opened Cri

  predicate IsDigit(c: char) { '0' <= c <= '9' }

  predicate AllDigits(s: string) { forall i :: 0 <= i < |s| ==> IsDigit(s[i]) }

  function DigitChar(d: nat): (c: char)
    requires d < 10
    ensures IsDigit(c) && DigitValue(c) == d
  {
    (('0' as int) + d) as char
  }

  function DigitValue(c: char): (v: nat)
    requires IsDigit(c)
  {
    (c as int) - ('0' as int)
  }

  /** The value of a string of decimal digits, most significant first. */
  function DecimalValue(s: string): (v: nat)
    requires AllDigits(s)
  {
    if s == [] then 0 else 10 * DecimalValue(s[..|s| - 1]) + DigitValue(s[|s| - 1])
  }

  /**
   `%d` of a natural number: at least one digit, no leading zero, and the
   digits read back as the number.
   */
  function Decimal(n: nat): (s: string)
    ensures |s| >= 1 && AllDigits(s)
    ensures |s| > 1 ==> s[0] != '0'
    ensures DecimalValue(s) == n
  {
    if n < 10 then [DigitChar(n)]
    else
      var prefix := Decimal(n / 10);
      assert (prefix + [DigitChar(n % 10)])[..|prefix|] == prefix;
      prefix + [DigitChar(n % 10)]
  }

  /** `fmt.Sprintf("%s_%s_%s_%d", Name, Namespace, Uid, Attempt)`. */
  function BuildSandboxName(md: PodSandboxMetadata): (id: string)
  {
    md.name + "_" + md.namespace + "_" + md.uid + "_" + Decimal(md.attempt)
  }

  /** `fmt.Sprintf("%s_%s_%d", sandboxID, Name, Attempt)`. */
  function BuildContainerName(md: ContainerMetadata, sandboxId: string): (id: string)
  {
    sandboxId + "_" + md.name + "_" + Decimal(md.attempt)
  }

  /** Two renderings that agree around a segment differ when the segments differ. */
  lemma {:induction false} SegmentDistinguishes(p: string, x: string, y: string, q: string)
    requires x != y
    ensures p + x + q != p + y + q
  {
    if |x| == |y| {
      var i :| 0 <= i < |x| && x[i] != y[i];
      assert (p + x + q)[|p| + i] == x[i];
      assert (p + y + q)[|p| + i] == y[i];
    }
  }

  lemma DecimalInjective(a: nat, b: nat)
    requires a != b
    ensures Decimal(a) != Decimal(b)
  {
  }

  /** Metadata that agree on all fields but one. */
  predicate OneSandboxFieldDiffers(a: PodSandboxMetadata, b: PodSandboxMetadata)
  {
    || (a.name != b.name && a.namespace == b.namespace && a.uid == b.uid && a.attempt == b.attempt)
    || (a.name == b.name && a.namespace != b.namespace && a.uid == b.uid && a.attempt == b.attempt)
    || (a.name == b.name && a.namespace == b.namespace && a.uid != b.uid && a.attempt == b.attempt)
    || (a.name == b.name && a.namespace == b.namespace && a.uid == b.uid && a.attempt != b.attempt)
  }

  /** Changing exactly one field of the sandbox metadata changes the sandbox ID. */
  lemma SandboxNameSeparatesFields(a: PodSandboxMetadata, b: PodSandboxMetadata)
    requires OneSandboxFieldDiffers(a, b)
    ensures BuildSandboxName(a) != BuildSandboxName(b)
  {
    var d := Decimal(a.attempt);
    if a.name != b.name {
      SegmentDistinguishes("", a.name, b.name, "_" + a.namespace + "_" + a.uid + "_" + d);
      assert BuildSandboxName(a) == "" + a.name + ("_" + a.namespace + "_" + a.uid + "_" + d);
      assert BuildSandboxName(b) == "" + b.name + ("_" + a.namespace + "_" + a.uid + "_" + d);
    } else if a.namespace != b.namespace {
      SegmentDistinguishes(a.name + "_", a.namespace, b.namespace, "_" + a.uid + "_" + d);
      assert BuildSandboxName(b) == (a.name + "_") + b.namespace + ("_" + a.uid + "_" + d);
    } else if a.uid != b.uid {
      SegmentDistinguishes(a.name + "_" + a.namespace + "_", a.uid, b.uid, "_" + d);
      assert BuildSandboxName(b) == (a.name + "_" + a.namespace + "_") + b.uid + ("_" + d);
    } else {
      DecimalInjective(a.attempt, b.attempt);
      SegmentDistinguishes(a.name + "_" + a.namespace + "_" + a.uid + "_", d, Decimal(b.attempt), "");
    }
  }

  predicate OneContainerFieldDiffers(a: ContainerMetadata, sa: string, b: ContainerMetadata, sb: string)
  {
    || (sa != sb && a.name == b.name && a.attempt == b.attempt)
    || (sa == sb && a.name != b.name && a.attempt == b.attempt)
    || (sa == sb && a.name == b.name && a.attempt != b.attempt)
  }

  /** Changing exactly one of sandbox ID, name and attempt changes the container ID. */
  lemma ContainerNameSeparatesFields(a: ContainerMetadata, sa: string, b: ContainerMetadata, sb: string)
    requires OneContainerFieldDiffers(a, sa, b, sb)
    ensures BuildContainerName(a, sa) != BuildContainerName(b, sb)
  {
    var d := Decimal(a.attempt);
    if sa != sb {
      SegmentDistinguishes("", sa, sb, "_" + a.name + "_" + d);
      assert BuildContainerName(a, sa) == "" + sa + ("_" + a.name + "_" + d);
      assert BuildContainerName(b, sb) == "" + sb + ("_" + a.name + "_" + d);
    } else if a.name != b.name {
      SegmentDistinguishes(sa + "_", a.name, b.name, "_" + d);
      assert BuildContainerName(b, sb) == (sa + "_") + b.name + ("_" + d);
    } else {
      DecimalInjective(a.attempt, b.attempt);
      SegmentDistinguishes(sa + "_" + a.name + "_", d, Decimal(b.attempt), "");
    }
  }

  /** Fields may themselves contain `_`, so distinct metadata can share an ID. */
  lemma SandboxNameNotInjective()
    ensures exists a, b :: a != b && BuildSandboxName(a) == BuildSandboxName(b)
  {
    var a := PodSandboxMetadata("a_b", "u", "c", 0);
    var b := PodSandboxMetadata("a", "u", "b_c", 0);
    assert BuildSandboxName(a) == "a_b_c_u_0";
    assert BuildSandboxName(b) == "a_b_c_u_0";
  }

  /** The text after the last `_` of `s` (all of `s` when it has none). */
  function LastSegment(s: string): (t: string)
    ensures |t| <= |s| && t == s[|s| - |t|..]
    ensures '_' !in t
    ensures |t| < |s| ==> s[|s| - |t| - 1] == '_'
  {
    if s == [] then []
    else if s[|s| - 1] == '_' then []
    else
      var init := LastSegment(s[..|s| - 1]);
      assert s[..|s| - 1][|s| - 1 - |init|..] + [s[|s| - 1]] == s[|s| - |init| - 1..];
      init + [s[|s| - 1]]
  }

  /** The attempt counter an ID ends with, if its last segment is a number. */
  function ParseAttempt(id: string): (attempt: Option<nat>)
  {
    var t := LastSegment(id);
    if t != [] && AllDigits(t) then Some(DecimalValue(t)) else None
  }

  lemma {:induction false} LastSegmentAfterSeparator(p: string, d: string)
    requires '_' !in d
    ensures LastSegment(p + "_" + d) == d
  {
    if d != [] {
      var s := p + "_" + d;
      assert s[..|s| - 1] == p + "_" + d[..|d| - 1];
      LastSegmentAfterSeparator(p, d[..|d| - 1]);
      assert d[..|d| - 1] + [d[|d| - 1]] == d;
    }
  }

  /** The attempt counter is recovered from a sandbox ID. */
  lemma SandboxNameRecoversAttempt(md: PodSandboxMetadata)
    ensures ParseAttempt(BuildSandboxName(md)) == Some(md.attempt as nat)
  {
    LastSegmentAfterSeparator(md.name + "_" + md.namespace + "_" + md.uid, Decimal(md.attempt));
  }

  /** The attempt counter is recovered from a container ID. */
  lemma ContainerNameRecoversAttempt(md: ContainerMetadata, sandboxId: string)
    ensures ParseAttempt(BuildContainerName(md, sandboxId)) == Some(md.attempt as nat)
  {
    LastSegmentAfterSeparator(sandboxId + "_" + md.name, Decimal(md.attempt));
  }
}

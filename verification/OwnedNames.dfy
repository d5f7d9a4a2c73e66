/** Names of the objects a CR owns: names.go and the holder name of runtime.go. */
module OwnedNames {
  datatype CrKind = Backup | Restore

  const LEGACY_PREFIX := "karkive-"
  const HOLDER_SUFFIX := "-holder"
  const LABEL_MAX := 63

  function Prefix(kind: CrKind): string {
    match kind
    case Backup => "karkive-backup-"
    case Restore => "karkive-restore-"
  }

  function OwnedName(kind: CrKind, name: string): string {
    Prefix(kind) + name
  }

  function LegacyName(name: string): string {
    LEGACY_PREFIX + name
  }

  function TrimDashes(s: string): (r: string)
    ensures |r| <= |s| && r == s[..|r|]
    ensures r != [] ==> r[|r| - 1] != '-'
    ensures forall i :: |r| <= i < |s| ==> s[i] == '-'
  {
    if s != [] && s[|s| - 1] == '-' then TrimDashes(s[..|s| - 1]) else s
  }

  function HolderName(owned: string): string {
    if |owned| + |HOLDER_SUFFIX| <= LABEL_MAX then owned + HOLDER_SUFFIX
    else TrimDashes(owned[..LABEL_MAX - |HOLDER_SUFFIX|]) + HOLDER_SUFFIX
  }

  /**
    A holder is named after its claim: the whole name if that fits, else its first 56 characters
    without the dashes they end in; and then the suffix.
  */
  lemma HolderNameTells(owned: string) returns (n: nat)
    ensures n <= |owned| && HolderName(owned) == owned[..n] + "-holder"
    ensures |owned| <= 56 ==> n == |owned|
    ensures |owned| > 56 ==>
              n <= 56 && (forall i :: n <= i < 56 ==> owned[i] == '-') && (n > 0 ==> owned[n - 1] != '-')
  {
    if |owned| <= 56 {
      n := |owned|;
      assert owned[..n] == owned;
    } else {
      var head := owned[..56];
      n := |TrimDashes(head)|;
      assert head[..n] == owned[..n];
      assert forall i :: 0 <= i < 56 ==> head[i] == owned[i];
    }
  }

  lemma HolderNameFits(owned: string)
    ensures |HolderName(owned)| <= LABEL_MAX
  {
  }

  /** Names that agree on their first 56 characters and are longer than that get one holder name. */
  lemma LongHolderNamesCollide(a: string, b: string)
    requires |a| > 56 && |b| > 56
    ensures a[..56] == b[..56] ==> HolderName(a) == HolderName(b)
  {
  }

  /** Short names keep their own. */
  lemma ShortHolderNamesDiffer(a: string, b: string)
    requires |a| <= 56 && |b| <= 56 && a != b
    ensures HolderName(a) != HolderName(b)
  {
    assert a == HolderName(a)[..|HolderName(a)| - |HOLDER_SUFFIX|];
    assert b == HolderName(b)[..|HolderName(b)| - |HOLDER_SUFFIX|];
  }

  /** The legacy name of one CR is the live name of another. */
  lemma LegacyMeetsLive(name: string)
    ensures LegacyName("backup-" + name) == OwnedName(Backup, name)
    ensures LegacyName("restore-" + name) == OwnedName(Restore, name)
  {
    assert LEGACY_PREFIX + ("backup-" + name) == "karkive-backup-" + name;
    assert LEGACY_PREFIX + ("restore-" + name) == "karkive-restore-" + name;
  }

  /** But never its own live name, and live names of the two kinds never meet. */
  lemma LiveNamesAreSeparate(name: string, other: string, kind: CrKind)
    ensures LegacyName(name) != OwnedName(kind, name)
    ensures OwnedName(Backup, name) != OwnedName(Restore, other)
  {
    assert OwnedName(Backup, name)[8] == 'b' && OwnedName(Restore, other)[8] == 'r';
  }
}

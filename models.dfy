/** The one entity of the inventory, a physical machine, and the closed set of
    machine kinds that every entry point checks against. */
module Models {

  /** An instant, in nanoseconds since the Unix epoch (Go's time.Time). */
  type Timestamp = int

  const NanosPerSecond: int := 1_000_000_000

  /** A Go float64 carried only as its bit pattern: no arithmetic is done on
      `storage_tb` anywhere in the system. */
  datatype Float64 = Float64(bits: bv64)

  const ZeroFloat: Float64 := Float64(0)

  /** The server's record (models.Machine). */
  datatype Machine = Machine(
    id: string,
    name: string,
    kind: string,
    make: string,
    model: string,
    cpu: string,
    ramGb: int,
    storageTb: Float64,
    location: string,
    serial: string,
    notes: string,
    createdAt: Timestamp,
    updatedAt: Timestamp)

  /** The Go zero value of models.Machine: what a JSON object without any of
      the fields decodes to. */
  const ZeroMachine: Machine := Machine("", "", "", "", "", "", 0, ZeroFloat, "", "", "", 0, 0)

  /** models.ValidKinds */
  const ValidKinds: set<string> := {"proxmox", "nas", "sbc", "bare_metal", "workstation", "laptop"}

  /** `models.ValidKinds[k]`: a map lookup, so the comparison is exact and
      case-sensitive. */
  predicate IsValidKind(k: string) {
    k in ValidKinds
  }

  /** The valid kinds are exactly six distinct strings. */
  lemma ValidKindsAreSix()
    ensures |ValidKinds| == 6
    ensures forall k :: IsValidKind(k) <==>
      k == "proxmox" || k == "nas" || k == "sbc" || k == "bare_metal" || k == "workstation" || k == "laptop"
  {
    var a: set<string> := {"proxmox"};
    var b := a + {"nas"};
    var c := b + {"sbc"};
    var d := c + {"bare_metal"};
    var e := d + {"workstation"};
    assert "nas" !in a;
    assert "sbc" !in b;
    assert "bare_metal" !in c;
    assert "workstation" !in d;
    assert "laptop" !in e;
    assert ValidKinds == e + {"laptop"};
  }

  /** Membership is by exact string: other spellings and the empty string are not kinds. */
  lemma KindIsCaseSensitive()
    ensures !IsValidKind("") && !IsValidKind("Proxmox") && !IsValidKind("PROXMOX")
    ensures !IsValidKind("NAS") && !IsValidKind("Nas")
  {
  }
}

/** The entities of `internal/store/models.go`: servers, users and the create payload. */
module Models {
  import opened Text

  datatype Status = Creating | Stopped | Starting | Running | Stopping | Error

  datatype Server = Server(
    id: string, name: string, ownerID: string,
    kind: string, version: string, provider: string, modpackID: string,
    port: int, memory: string, cpuLimit: real,
    status: Status, message: string, containerID: string)

  datatype User = User(id: string, username: string, passwordHash: string, isAdmin: bool)

  const VANILLA := "VANILLA"
  const LATEST := "LATEST"
  const MODPACK_NONE := ""
  const MODPACK_CURSEFORGE := "curseforge"
  const MODPACK_MODRINTH := "modrinth"
  const SERVER_TYPES := {VANILLA, "FORGE", "FABRIC", "NEOFORGE"}
  const MODPACK_PROVIDERS := {MODPACK_NONE, MODPACK_CURSEFORGE, MODPACK_MODRINTH}

  function ContainerName(id: string): string {
    "owo-mc-" + id
  }

  function VolumeName(id: string): string {
    "owo-data-" + id
  }

  lemma NamesAreInjective(a: string, b: string)
    ensures ContainerName(a) == ContainerName(b) ==> a == b
    ensures VolumeName(a) == VolumeName(b) ==> a == b
  {
    assert ContainerName(a)[7..] == a && ContainerName(b)[7..] == b;
    assert VolumeName(a)[9..] == a && VolumeName(b)[9..] == b;
  }

  /** The fields of a create request, as a value. */
  datatype Input = Input(
    name: string, kind: string, version: string, provider: string, modpackID: string,
    memory: string, cpuLimit: real)

  /** What every accepted request satisfies once it has been normalised. */
  predicate Acceptable(v: Input) {
    && 0 < ByteLength(v.name) <= 64 && TrimSpace(v.name) == v.name
    && v.kind in SERVER_TYPES
    && TrimSpace(v.version) != ""
    && v.provider in MODPACK_PROVIDERS
    && (v.provider != MODPACK_NONE ==> TrimSpace(v.modpackID) != "")
    && v.cpuLimit >= 0.0
  }

  /** What may be wrong with a request, in the order in which the checks come. */
  datatype Fault = NoName | LongName | UnknownType | UnknownProvider | NoModpackID | NegativeCPU

  function Rank(f: Fault): nat {
    match f
    case NoName => 0
    case LongName => 1
    case UnknownType => 2
    case UnknownProvider => 3
    case NoModpackID => 4
    case NegativeCPU => 5
  }

  predicate Has(v: Input, f: Fault) {
    match f
    case NoName => v.name == ""
    case LongName => ByteLength(v.name) > 64
    case UnknownType => v.kind !in SERVER_TYPES
    case UnknownProvider => v.provider !in MODPACK_PROVIDERS
    case NoModpackID => v.provider != MODPACK_NONE && TrimSpace(v.modpackID) == ""
    case NegativeCPU => v.cpuLimit < 0.0
  }

  ghost predicate FirstFault(v: Input, f: Fault) {
    Has(v, f) && forall g :: Has(v, g) ==> Rank(f) <= Rank(g)
  }

  /** The first fault of a request, if it has any. */
  function FaultOf(v: Input): (f: Option<Fault>)
    ensures f.Some? ==> FirstFault(v, f.value)
    ensures f == None ==> forall g :: !Has(v, g)
  {
    if Has(v, NoName) then Some(NoName)
    else if Has(v, LongName) then Some(LongName)
    else if Has(v, UnknownType) then Some(UnknownType)
    else if Has(v, UnknownProvider) then Some(UnknownProvider)
    else if Has(v, NoModpackID) then Some(NoModpackID)
    else if Has(v, NegativeCPU) then Some(NegativeCPU)
    else None
  }

  /** The normalised request: the name trimmed, the type and version defaulted. */
  function Normalised(v: Input): Input {
    v.(name := TrimSpace(v.name),
       kind := if v.kind == "" then VANILLA else v.kind,
       version := if TrimSpace(v.version) == "" then LATEST else v.version)
  }

  /** A normalised request is acceptable exactly when none of the checks finds a fault. */
  lemma AcceptableExactlyWithoutFault(v: Input)
    ensures Acceptable(Normalised(v)) <==> FaultOf(Normalised(v)) == None
  {
    var n := Normalised(v);
    TrimSpaceOfTrimmed(n.name);
    TrimSpaceOfTrimmed(LATEST);
    if FaultOf(n) == None {
      assert !Has(n, NoName) && !Has(n, LongName) && !Has(n, UnknownType);
      assert !Has(n, UnknownProvider) && !Has(n, NoModpackID) && !Has(n, NegativeCPU);
    }
  }

  /** Which requests are accepted, as they come in: only a missing type or version is filled in, and space around the name
      does not count. */
  lemma AcceptsExactly(v: Input)
    ensures Acceptable(Normalised(v)) <==>
              && 1 <= ByteLength(TrimSpace(v.name)) <= 64
              && v.kind in {"", "VANILLA", "FORGE", "FABRIC", "NEOFORGE"}
              && v.provider in {"", "curseforge", "modrinth"}
              && (v.provider == "" || exists c :: c in v.modpackID && !IsSpace(c))
              && v.cpuLimit >= 0.0
    ensures Normalised(v).name == TrimSpace(v.name)
    ensures Normalised(v).kind == (if v.kind == "" then "VANILLA" else v.kind)
    ensures Normalised(v).version == (if exists c :: c in v.version && !IsSpace(c) then v.version else "LATEST")
    ensures Normalised(v).(name := v.name, kind := v.kind, version := v.version) == v
  {
    var n := Normalised(v);
    TrimSpaceOfTrimmed(n.name);
    TrimSpaceOfTrimmed(LATEST);
    assert LATEST[0] == 'L' && 'L' in LATEST;
  }

  lemma NormalisingIsIdempotent(v: Input)
    ensures Normalised(Normalised(v)) == Normalised(v)
    ensures Acceptable(v) ==> Normalised(v) == v
  {
    TrimSpaceOfTrimmed(TrimSpace(v.name));
  }

  /** A create request, normalised in place. */
  class CreateServerInput {
    var name: string
    var kind: string
    var version: string
    var provider: string
    var modpackID: string
    var memory: string
    var cpuLimit: real

    constructor (v: Input)
      ensures Value() == v
    {
      name, kind, version := v.name, v.kind, v.version;
      provider, modpackID, memory, cpuLimit := v.provider, v.modpackID, v.memory, v.cpuLimit;
    }

    function Value(): Input
      reads this
    {
      Input(name, kind, version, provider, modpackID, memory, cpuLimit)
    }

    /** Accepts exactly the requests whose normalised form is acceptable, and of any other names the first fault. */
    method Validate() returns (error: Option<Fault>)
      modifies this
      ensures error == None <==> Acceptable(Normalised(old(Value())))
      ensures error == None ==> Value() == Normalised(old(Value()))
      ensures error.Some? ==> FirstFault(Normalised(old(Value())), error.value)
    {
      ghost var before := Normalised(Value());
      AcceptableExactlyWithoutFault(Value());
      name := TrimSpace(name);
      if name == "" {
        return Some(NoName);
      }
      if ByteLength(name) > 64 {
        return Some(LongName);
      }
      if kind == "" {
        kind := VANILLA;
      }
      if kind !in SERVER_TYPES {
        return Some(UnknownType);
      }
      if TrimSpace(version) == "" {
        version := LATEST;
      }
      assert Value() == before;
      if provider !in MODPACK_PROVIDERS {
        return Some(UnknownProvider);
      }
      if provider != MODPACK_NONE && TrimSpace(modpackID) == "" {
        return Some(NoModpackID);
      }
      if cpuLimit < 0.0 {
        return Some(NegativeCPU);
      }
      return None;
    }
  }
}

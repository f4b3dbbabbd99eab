/** The gateway's normaliser of the OPC UA security descriptor
    `policy,mode,cert,key[,...]` (TCC/gateway/src/main.py, `_resolve_sec_string`). */
module Security {
  import opened Wrappers
  import opened Strings

  /** What the normaliser asks of `pathlib`, as functions of the path text:
      `Path(p).is_absolute()`, `str(Path(p))` for a path kept as given,
      `str((BASE_DIR / p).resolve())` for a relative one, and `Path(p).exists()` (`present`). */
  datatype FileSystem = FileSystem(
    isAbsolute: string -> bool,
    asGiven: string -> string,
    resolved: string -> string,
    present: string -> bool)

  /** `ValueError` for a descriptor with too few fields, `FileNotFoundError` for a
      missing certificate or key file (carrying the path that was checked). */
  datatype SecError = Malformed(raw: string) | CertNotFound(path: string) | KeyNotFound(path: string)

  /** `not raw or raw == "None"`: no descriptor, so no security. */
  predicate NoDescriptor(raw: Option<string>)
  {
    raw.None? || raw.value == "" || raw.value == "None"
  }

  /** The comma-separated fields, each stripped of surrounding white space. */
  function Fields(raw: string): (r: seq<string>)
    ensures |r| == |Split(raw, ',')|
    ensures forall i :: 0 <= i < |r| ==> r[i] == Strip(Split(raw, ',')[i])
    ensures forall i :: 0 <= i < |r| ==> ',' !in r[i]
  {
    var p := Split(raw, ',');
    seq(|p|, i requires 0 <= i < |p| => Strip(p[i]))
  }

  /** Where a certificate or key field points: kept when absolute, resolved against
      the gateway's base directory when relative. */
  function ClientPath(fs: FileSystem, field: string): string
  {
    if fs.isAbsolute(field) then fs.asGiven(field) else fs.resolved(field)
  }

  /** A present descriptor with at least the four mandatory fields. */
  predicate WellFormed(raw: Option<string>)
  {
    !NoDescriptor(raw) && |Split(raw.value, ',')| >= 4
  }

  function CertPath(fs: FileSystem, raw: Option<string>): string
    requires WellFormed(raw)
  {
    ClientPath(fs, Fields(raw.value)[2])
  }

  function KeyPath(fs: FileSystem, raw: Option<string>): string
    requires WellFormed(raw)
  {
    ClientPath(fs, Fields(raw.value)[3])
  }

  /** The normalised descriptor, `None` when security is off, or the error raised. */
  function ResolveSecString(raw: Option<string>, fs: FileSystem): (r: Result<Option<string>, SecError>)
    ensures r == Ok(None) <==> NoDescriptor(raw)
    ensures r.Err? && r.error.Malformed? <==> !NoDescriptor(raw) && !WellFormed(raw)
    ensures r.Err? && r.error.CertNotFound? <==>
      WellFormed(raw) && !fs.present(CertPath(fs, raw))
    ensures r.Err? && r.error.KeyNotFound? <==>
      WellFormed(raw) && fs.present(CertPath(fs, raw)) && !fs.present(KeyPath(fs, raw))
    ensures r.Err? && r.error.CertNotFound? ==> r.error.path == CertPath(fs, raw)
    ensures r.Err? && r.error.KeyNotFound? ==> r.error.path == KeyPath(fs, raw)
  {
    if NoDescriptor(raw) then Ok(None)
    else
      var parts := Fields(raw.value);
      if |parts| < 4 then Err(Malformed(raw.value))
      else
        var cert := ClientPath(fs, parts[2]);
        var key := ClientPath(fs, parts[3]);
        if !fs.present(cert) then Err(CertNotFound(cert))
        else if !fs.present(key) then Err(KeyNotFound(key))
        else Ok(Some(Join([parts[0], parts[1], cert, key] + parts[4..], ',')))
  }

  /** A descriptor comes back exactly when it is well formed and both files exist;
      its fields are then the stripped policy and mode, the two client paths, and
      every extra field, unchanged and in order. */
  lemma DescriptorFields(raw: Option<string>, fs: FileSystem)
    requires WellFormed(raw)
    requires ',' !in CertPath(fs, raw) && ',' !in KeyPath(fs, raw)
    ensures var r := ResolveSecString(raw, fs);
      r.Ok? && r.value.Some? <==> fs.present(CertPath(fs, raw)) && fs.present(KeyPath(fs, raw))
    ensures var r := ResolveSecString(raw, fs);
      r.Ok? && r.value.Some? ==>
        var f := Fields(raw.value);
        Split(r.value.value, ',') == [f[0], f[1], CertPath(fs, raw), KeyPath(fs, raw)] + f[4..]
  {
    var f := Fields(raw.value);
    CommaFreeParts(f, CertPath(fs, raw), KeyPath(fs, raw));
    SplitJoin([f[0], f[1], CertPath(fs, raw), KeyPath(fs, raw)] + f[4..], ',');
  }

  /** Replacing the two path fields of comma-free fields by comma-free paths
      leaves every field comma-free. */
  lemma CommaFreeParts(f: seq<string>, cert: string, key: string)
    requires |f| >= 4 && forall i :: 0 <= i < |f| ==> ',' !in f[i]
    requires ',' !in cert && ',' !in key
    ensures var out := [f[0], f[1], cert, key] + f[4..];
      forall i :: 0 <= i < |out| ==> ',' !in out[i]
  {
    var out := [f[0], f[1], cert, key] + f[4..];
    forall i | 0 <= i < |out| ensures ',' !in out[i] {
      if i >= 4 {
        assert out[i] == f[i];
      }
    }
  }
}

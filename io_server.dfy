/** The object gateway's server (servers/io/io.go): start-up flag handling,
    including the colon-separated list of metadata groups and the
    repeatable string flags, and the HTTP handlers that turn the gateway's
    results into JSON responses. */
module IoServer {
  import opened Basics
  import opened Records
  import opened KeyModifier
  import opened ObjectIO

  /** strings.Split with a one-character separator: the pieces between
      separators, so there is always one more piece than separators. */
  function Split(s: string, sep: char): (parts: seq<string>)
    ensures |parts| >= 1
    decreases |s|
  {
    if s == [] then [""]
    else
      var rest := Split(s[1..], sep);
      if s[0] == sep then [""] + rest
      else [[s[0]] + rest[0]] + rest[1..]
  }

  /** Occurrences of `c` in `s`. */
  function Occurrences(s: string, c: char): nat
    decreases |s|
  {
    if s == [] then 0 else (if s[0] == c then 1 else 0) + Occurrences(s[1..], c)
  }

  /** Split yields one piece per separator plus one, none of them holding
      the separator. */
  lemma {:induction false} SplitPieces(s: string, sep: char)
    ensures |Split(s, sep)| == Occurrences(s, sep) + 1
    ensures forall i :: 0 <= i < |Split(s, sep)| ==> sep !in Split(s, sep)[i]
    decreases |s|
  {
    if s != [] {
      SplitPieces(s[1..], sep);
      var rest := Split(s[1..], sep);
      if s[0] != sep {
        var parts := Split(s, sep);
        forall i | 0 <= i < |parts|
          ensures sep !in parts[i]
        {
          if i == 0 {
            assert parts[0] == [s[0]] + rest[0];
          } else {
            assert parts[i] == rest[i];
          }
        }
      }
    }
  }

  /** Joining the pieces back with the separator restores the string. */
  lemma {:induction false} SplitJoin(s: string, sep: char)
    ensures JoinWith(Split(s, sep), sep) == s
    decreases |s|
  {
    if s != [] {
      SplitJoin(s[1..], sep);
      var rest := Split(s[1..], sep);
      if s[0] == sep {
        assert ([""] + rest)[1..] == rest;
        assert s == [sep] + s[1..];
      } else if |rest| == 1 {
        assert s == [s[0]] + s[1..];
      } else {
        var parts := [[s[0]] + rest[0]] + rest[1..];
        assert parts[1..] == rest[1..];
        assert s == [s[0]] + s[1..];
      }
    }
  }

  /** A piece without the separator is one piece. */
  lemma {:induction false} SplitPlain(a: string, sep: char)
    requires sep !in a
    ensures Split(a, sep) == [a]
    decreases |a|
  {
    if a != [] {
      SplitPlain(a[1..], sep);
      assert [a[0]] + a[1..] == a;
    }
  }

  /** Splitting at the first separator. */
  lemma {:induction false} SplitAtSeparator(a: string, sep: char, b: string)
    requires sep !in a
    ensures Split(a + [sep] + b, sep) == [a] + Split(b, sep)
    decreases |a|
  {
    var s := a + [sep] + b;
    if a == [] {
      assert s[1..] == b;
    } else {
      assert s[1..] == a[1..] + [sep] + b;
      SplitAtSeparator(a[1..], sep, b);
      assert [a[0]] + a[1..] == a;
    }
  }

  /** Splitting a join of separator-free pieces gives the pieces back. */
  lemma {:induction false} JoinSplit(parts: seq<string>, sep: char)
    requires |parts| >= 1
    requires forall i :: 0 <= i < |parts| ==> sep !in parts[i]
    ensures Split(JoinWith(parts, sep), sep) == parts
    decreases |parts|
  {
    if |parts| == 1 {
      SplitPlain(parts[0], sep);
    } else {
      JoinSplit(parts[1..], sep);
      SplitAtSeparator(parts[0], sep, JoinWith(parts[1..], sep));
      assert [parts[0]] + parts[1..] == parts;
    }
  }

  /** strconv.Atoi on a 64-bit platform: an optional sign, at least one
      decimal digit, and a value within int64; anything else is an error. */
  function Atoi(s: string): (r: Option<int>)
    ensures r.Some? ==> MinInt64 <= r.value <= MaxInt64
    ensures s == "" ==> r.None?
  {
    var signed := |s| > 0 && (s[0] == '+' || s[0] == '-');
    var digits := if signed then s[1..] else s;
    if |digits| == 0 || !AllDigits(digits) then None
    else
      var n: int := DigitsValue(digits);
      var v := if signed && s[0] == '-' then -n else n;
      if v < MinInt64 || v > MaxInt64 then None else Some(v)
  }

  /** Atoi reads back what decimal formatting prints. */
  lemma AtoiDecimal(n: nat)
    requires n <= MaxInt64
    ensures Atoi(Decimal(n)) == Some(n)
  {
    DecimalValue(n);
    assert IsDigit(Decimal(n)[0]);
  }

  /** Go's uint32(x) of an int: the low 32 bits, so negative values wrap
      modulo 2^32. */
  function Uint32Of(x: int): (r: Uint32)
    ensures 0 <= x < TwoTo32 ==> r == x
    ensures -TwoTo32 <= x < 0 ==> r == x + TwoTo32
    ensures (r - x) % TwoTo32 == 0
  {
    x % TwoTo32
  }

  /** Why the server refuses to start. */
  datatype StartupError =
    | UnknownFlag(name: string)
    | MissingAddr
    | MissingAuth
    | MissingBuckets
    | MissingGroups
    | MissingTranscode
    | MissingRemotes
    | InvalidGroups(segment: string)
    | NoGroups

  /** The group list the loop over the segments builds, stopping at the
      first segment Atoi rejects. */
  function GroupsOf(segments: seq<string>): (r: Result<seq<Uint32>, StartupError>)
    ensures r.Ok? ==> |r.value| == |segments|
    ensures r.Err? ==> r.error.InvalidGroups?
    decreases |segments|
  {
    if segments == [] then Ok([])
    else
      var init := GroupsOf(segments[..|segments| - 1]);
      var last := segments[|segments| - 1];
      if init.Err? then init
      else if Atoi(last).None? then Err(InvalidGroups(last))
      else Ok(init.value + [Uint32Of(Atoi(last).value)])
  }

  /** The -metadata-groups handling of main: an empty flag is refused before
      parsing, then every segment must parse. */
  function ParseGroupsSpec(mgroups: string): Result<seq<Uint32>, StartupError> {
    if mgroups == "" then Err(MissingGroups)
    else
      var mg := GroupsOf(Split(mgroups, ':'));
      if mg.Err? then mg
      else if |mg.value| == 0 then Err(NoGroups)
      else mg
  }

  /** The groups parse exactly when every segment does, into one entry per
      segment, each the wrapped value of its segment. */
  lemma {:induction false} GroupsOfValues(segments: seq<string>)
    ensures GroupsOf(segments).Ok? <==> forall i :: 0 <= i < |segments| ==> Atoi(segments[i]).Some?
    ensures GroupsOf(segments).Ok? ==>
      forall i :: 0 <= i < |segments| ==> GroupsOf(segments).value[i] == Uint32Of(Atoi(segments[i]).value)
    decreases |segments|
  {
    if segments != [] {
      var n := |segments| - 1;
      var init := segments[..n];
      GroupsOfValues(init);
      if GroupsOf(init).Err? {
        var i :| 0 <= i < n && Atoi(init[i]).None?;
        assert segments[i] == init[i];
      } else if Atoi(segments[n]).Some? {
        assert segments == init + [segments[n]];
        ValuesSnoc(init, segments[n], GroupsOf(init).value);
      }
    }
  }

  /** One more segment that parses adds its wrapped value at the end. */
  lemma ValuesSnoc(init: seq<string>, last: string, w: seq<Uint32>)
    requires |init| == |w| && Atoi(last).Some?
    requires forall i :: 0 <= i < |init| ==> Atoi(init[i]).Some? && w[i] == Uint32Of(Atoi(init[i]).value)
    ensures var segments, v := init + [last], w + [Uint32Of(Atoi(last).value)];
      forall i :: 0 <= i < |segments| ==> Atoi(segments[i]).Some? && v[i] == Uint32Of(Atoi(segments[i]).value)
  {
    var segments, v := init + [last], w + [Uint32Of(Atoi(last).value)];
    forall i | 0 <= i < |segments|
      ensures Atoi(segments[i]).Some? && v[i] == Uint32Of(Atoi(segments[i]).value)
    {
      if i < |init| {
        assert segments[i] == init[i] && v[i] == w[i];
      }
    }
  }

  /** A failing parse names the first segment that does not parse, the
      empty one included. */
  lemma {:induction false} GroupsOfFirstFailure(segments: seq<string>)
    requires GroupsOf(segments).Err?
    ensures exists i :: (0 <= i < |segments| && Atoi(segments[i]).None?
      && GroupsOf(segments).error == InvalidGroups(segments[i])
      && GroupsOf(segments[..i]).Ok?)
    decreases |segments|
  {
    var init := segments[..|segments| - 1];
    if GroupsOf(init).Err? {
      GroupsOfFirstFailure(init);
      var i :| 0 <= i < |init| && Atoi(init[i]).None?
        && GroupsOf(init).error == InvalidGroups(init[i]) && GroupsOf(init[..i]).Ok?;
      assert init[..i] == segments[..i];
      assert segments[i] == init[i];
    } else {
      assert segments[..|segments| - 1] == init;
    }
  }

  /** The length check after the loop never fires: a non-empty flag always
      splits into at least one segment. */
  lemma NoGroupsUnreachable(mgroups: string)
    ensures ParseGroupsSpec(mgroups) != Err(NoGroups)
  {
  }

  /** An empty segment, as in "1::2", stops the server. */
  lemma EmptySegmentRejected()
    ensures ParseGroupsSpec("1::2") == Err(InvalidGroups(""))
  {
    SplitPlain("2", ':');
    SplitAtSeparator("", ':', "2");
    assert "" + [':'] + "2" == ":2";
    SplitAtSeparator("1", ':', ":2");
    assert "1" + [':'] + ":2" == "1::2";
    var segments := ["1", "", "2"];
    assert Split("1::2", ':') == segments;
    assert Atoi("1") == Some(1) by {
      assert DigitsValue("1") == 1 by {
        assert "1"[..0] == "";
      }
    }
    var one: seq<Uint32> := [1];
    assert [] + one == one;
    assert ["1"][..0] == [];
    assert GroupsOf(["1"]) == Ok(one);
    assert ["1", ""][..1] == ["1"];
    assert GroupsOf(["1", ""]) == Err(InvalidGroups(""));
    assert segments[..2] == ["1", ""];
    assert GroupsOf(segments) == Err(InvalidGroups(""));
  }

  /** A negative group number wraps: "-1" is group 4294967295. */
  lemma NegativeGroupWraps()
    ensures ParseGroupsSpec("-1") == Ok([TwoTo32 - 1])
  {
    SplitPlain("-1", ':');
    assert DigitsValue("1") == 1 by {
      assert "1"[..0] == "";
    }
    assert Atoi("-1") == Some(-1) by {
      assert "-1"[1..] == "1";
    }
    assert ["-1"][..0] == [];
    assert GroupsOf([]) == Ok([]);
    assert Uint32Of(-1) == TwoTo32 - 1;
    var one: seq<Uint32> := [TwoTo32 - 1];
    assert [] + one == one;
    assert GroupsOf(["-1"]) == Ok(one);
    assert Split("-1", ':') == ["-1"];
  }

  /** The header format and the flag format agree: a group list printed as
      it is in X-Ell-Groups parses back to itself. */
  lemma GroupsRoundTrip(groups: seq<Uint32>)
    requires |groups| >= 1
    ensures ParseGroupsSpec(DecimalList(groups, ':')) == Ok(groups)
  {
    var texts := seq(|groups|, i requires 0 <= i < |groups| => Decimal(groups[i]));
    forall i | 0 <= i < |texts|
      ensures ':' !in texts[i] && Atoi(texts[i]) == Some(groups[i])
    {
      AtoiDecimal(groups[i]);
    }
    JoinSplit(texts, ':');
    GroupsOfValues(texts);
    var mg := GroupsOf(texts);
    assert mg.Ok?;
    assert mg.value == groups;
  }

  /** ParseGroups: the loop of main over the segments of -metadata-groups. */
  method ParseGroups(mgroups: string) returns (r: Result<seq<Uint32>, StartupError>)
    ensures r == ParseGroupsSpec(mgroups)
  {
    if mgroups == "" {
      return Err(MissingGroups);
    }
    var segments := Split(mgroups, ':');
    var mg: seq<Uint32> := [];
    var i := 0;
    while i < |segments|
      invariant 0 <= i <= |segments|
      invariant GroupsOf(segments[..i]) == Ok(mg)
    {
      var s := segments[i];
      var group := Atoi(s);
      if group.None? {
        GroupsOfAbort(segments, i);
        return Err(InvalidGroups(s));
      }
      GroupsOfStep(segments, i, mg);
      mg := mg + [Uint32Of(group.value)];
      i := i + 1;
    }
    assert segments[..i] == segments;
    r := if |mg| == 0 then Err(NoGroups) else Ok(mg);
  }

  /** A segment that parses extends the groups of the segments before it. */
  lemma GroupsOfStep(segments: seq<string>, i: nat, mg: seq<Uint32>)
    requires i < |segments| && GroupsOf(segments[..i]) == Ok(mg) && Atoi(segments[i]).Some?
    ensures GroupsOf(segments[..i + 1]) == Ok(mg + [Uint32Of(Atoi(segments[i]).value)])
  {
    var prefix := segments[..i + 1];
    assert prefix[..i] == segments[..i] && prefix[i] == segments[i];
  }

  /** Once a segment fails, the rest of the list does not matter. */
  lemma {:induction false} GroupsOfAbort(segments: seq<string>, i: nat)
    requires i < |segments| && GroupsOf(segments[..i]).Ok? && Atoi(segments[i]).None?
    ensures GroupsOf(segments) == Err(InvalidGroups(segments[i]))
    decreases |segments|
  {
    if i < |segments| - 1 {
      var init := segments[..|segments| - 1];
      assert init[..i] == segments[..i];
      GroupsOfAbort(init, i);
    } else {
      assert segments[..i] == segments[..|segments| - 1];
    }
  }

  /** sslice: a flag value that collects every occurrence. */
  class StringSlice {
    var items: seq<string>

    constructor ()
      ensures items == []
    {
      items := [];
    }

    /** Set appends; it never fails. */
    method Set(value: string) returns (err: Option<string>)
      modifies this
      ensures items == old(items) + [value] && err.None?
    {
      items := items + [value];
      err := None;
    }
  }

  /** The names main declares, and any other name given on the command
      line. */
  datatype FlagName =
    | Addr | Auth | Bucket | MetadataGroups | Transcode | Remote | LogFile | LogLevel
    | Undeclared(text: string)

  /** One -name=value on the command line. */
  datatype FlagArg = FlagArg(name: FlagName, value: string)

  /** The flags main declares, after parsing. */
  datatype Flags = Flags(
    addr: string,
    auth: string,
    buckets: seq<string>,
    mgroups: string,
    transcode: string,
    remotes: seq<string>,
    logFile: string,
    logLevel: string)

  const DefaultFlags := Flags("", "", [], "", "", [], "/dev/stdout", "error")

  predicate Declared(name: FlagName) {
    !name.Undeclared?
  }

  /** Every value given for `name`, in command-line order. */
  function ValuesOf(args: seq<FlagArg>, name: FlagName): seq<string>
    decreases |args|
  {
    if args == [] then []
    else ValuesOf(args[..|args| - 1], name) + (if args[|args| - 1].name == name then [args[|args| - 1].value] else [])
  }

  /** The value a plain string flag ends with: the last one given, or the
      default. */
  function LastValue(args: seq<FlagArg>, name: FlagName, default: string): string {
    var vs := ValuesOf(args, name);
    if vs == [] then default else vs[|vs| - 1]
  }

  /** One argument applied to the flag set: a repeatable flag collects the
      value, a plain one takes it. */
  function Apply(f: Flags, a: FlagArg): Flags {
    match a.name
    case Bucket => f.(buckets := f.buckets + [a.value])
    case Remote => f.(remotes := f.remotes + [a.value])
    case Addr => f.(addr := a.value)
    case Auth => f.(auth := a.value)
    case MetadataGroups => f.(mgroups := a.value)
    case Transcode => f.(transcode := a.value)
    case LogFile => f.(logFile := a.value)
    case LogLevel => f.(logLevel := a.value)
    case Undeclared(_) => f
  }

  /** The flag set after parsing `args`. */
  function FlagsOf(args: seq<FlagArg>): Flags
    decreases |args|
  {
    if args == [] then DefaultFlags else Apply(FlagsOf(args[..|args| - 1]), args[|args| - 1])
  }

  /** After parsing, -bucket and -remote hold every value given, in
      command-line order. */
  lemma {:induction false} FlagsOfCollect(args: seq<FlagArg>)
    ensures FlagsOf(args).buckets == ValuesOf(args, Bucket)
    ensures FlagsOf(args).remotes == ValuesOf(args, Remote)
    decreases |args|
  {
    if args != [] {
      FlagsOfCollect(args[..|args| - 1]);
    }
  }

  /** The flags that take a single value, and their defaults. */
  predicate IsPlain(name: FlagName) {
    name.Addr? || name.Auth? || name.MetadataGroups? || name.Transcode? || name.LogFile? || name.LogLevel?
  }

  function PlainValue(f: Flags, name: FlagName): string {
    match name
    case Addr => f.addr
    case Auth => f.auth
    case MetadataGroups => f.mgroups
    case Transcode => f.transcode
    case LogFile => f.logFile
    case LogLevel => f.logLevel
    case _ => ""
  }

  function PlainDefault(name: FlagName): string {
    match name
    case LogFile => "/dev/stdout"
    case LogLevel => "error"
    case _ => ""
  }

  /** After parsing, every other flag holds the last value given, or its
      default. */
  lemma {:induction false} FlagsOfLast(args: seq<FlagArg>, name: FlagName)
    requires IsPlain(name)
    ensures PlainValue(FlagsOf(args), name) == LastValue(args, name, PlainDefault(name))
    decreases |args|
  {
    if args != [] {
      FlagsOfLast(args[..|args| - 1], name);
    }
  }

  /** flag.Parse over the declared flags; an undeclared flag stops it. */
  method ParseFlags(args: seq<FlagArg>) returns (r: Result<Flags, StartupError>)
    ensures (forall i :: 0 <= i < |args| ==> Declared(args[i].name)) ==> r == Ok(FlagsOf(args))
    ensures (exists i :: 0 <= i < |args| && !Declared(args[i].name)) ==> r.Err?
  {
    var bnames := new StringSlice();
    var remotes := new StringSlice();
    var addr, auth, mgroups, transcode, logFile, logLevel := "", "", "", "", "/dev/stdout", "error";
    var i := 0;
    while i < |args|
      invariant 0 <= i <= |args|
      invariant forall j :: 0 <= j < i ==> Declared(args[j].name)
      invariant Flags(addr, auth, bnames.items, mgroups, transcode, remotes.items, logFile, logLevel) == FlagsOf(args[..i])
    {
      var a := args[i];
      if !Declared(a.name) {
        return Err(UnknownFlag(a.name.text));
      }
      assert args[..i + 1][..i] == args[..i];
      match a.name {
        case Bucket =>
          var _ := bnames.Set(a.value);
        case Remote =>
          var _ := remotes.Set(a.value);
        case Addr => addr := a.value;
        case Auth => auth := a.value;
        case MetadataGroups => mgroups := a.value;
        case Transcode => transcode := a.value;
        case LogFile => logFile := a.value;
        case LogLevel => logLevel := a.value;
      }
      i := i + 1;
    }
    assert args[..i] == args;
    return Ok(Flags(addr, auth, bnames.items, mgroups, transcode, remotes.items, logFile, logLevel));
  }

  /** What main needs to start the gateway. */
  datatype Config = Config(
    addr: string,
    auth: string,
    buckets: seq<string>,
    groups: seq<Uint32>,
    transcode: string,
    remotes: seq<string>,
    logFile: string,
    logLevel: string)

  /** The checks of main, in their order: each required flag, then the
      groups. */
  function Startup(f: Flags): (r: Result<Config, StartupError>)
    ensures r.Ok? <==>
      f.addr != "" && f.auth != "" && |f.buckets| > 0 && f.transcode != "" && |f.remotes| > 0
      && ParseGroupsSpec(f.mgroups).Ok?
    ensures r.Ok? ==>
      (r.value.groups == ParseGroupsSpec(f.mgroups).value
       && r.value.buckets == f.buckets && r.value.remotes == f.remotes)
  {
    if f.addr == "" then Err(MissingAddr)
    else if f.auth == "" then Err(MissingAuth)
    else if |f.buckets| == 0 then Err(MissingBuckets)
    else if f.mgroups == "" then Err(MissingGroups)
    else if f.transcode == "" then Err(MissingTranscode)
    else if |f.remotes| == 0 then Err(MissingRemotes)
    else
      var mg := ParseGroupsSpec(f.mgroups);
      if mg.Err? then Err(mg.error)
      else Ok(Config(f.addr, f.auth, f.buckets, mg.value, f.transcode, f.remotes, f.logFile, f.logLevel))
  }

  /** Repeated -bucket and -remote flags reach the gateway in command-line
      order. */
  lemma RepeatedFlagsAccumulate(args: seq<FlagArg>, name: FlagName, value: string)
    ensures ValuesOf(args + [FlagArg(name, value)], name) == ValuesOf(args, name) + [value]
    ensures forall other :: other != name ==> ValuesOf(args + [FlagArg(other, value)], name) == ValuesOf(args, name)
  {
    assert (args + [FlagArg(name, value)])[..|args|] == args;
    forall other | other != name
      ensures ValuesOf(args + [FlagArg(other, value)], name) == ValuesOf(args, name)
    {
      assert (args + [FlagArg(other, value)])[..|args|] == args;
    }
  }

  /** A JSON response of a handler, or a body streamed by the gateway. */
  datatype Response =
    | ErrorJson(status: int, operation: string, error: IoError)
    | RepliesJson(status: int, operation: string, replies: seq<Reply>)
    | Streamed(status: int)

  /** upload_handler's mapping: any error is 503, success is 200 with the
      replies. */
  function UploadResponse(r: Result<seq<Reply>, IoError>): (resp: Response)
    ensures resp.status == StatusServiceUnavailable <==> r.Err?
    ensures resp.status == StatusOK <==> r.Ok?
    ensures r.Ok? ==> resp == RepliesJson(StatusOK, "upload", r.value)
    ensures r.Err? ==> resp == ErrorJson(StatusServiceUnavailable, "upload", r.error)
  {
    if r.Err? then ErrorJson(StatusServiceUnavailable, "upload", r.error)
    else RepliesJson(StatusOK, "upload", r.value)
  }

  /** The download handlers' mapping: the gateway's status with the error,
      or the streamed body. */
  function DownloadResponse(operation: string, s: Status): Response {
    if s.err.Some? then ErrorJson(s.code, operation, s.err.value) else Streamed(s.code)
  }

  /** A download handler reports an error exactly when the gateway failed,
      never with status 200, and the streamed case is always 200. */
  lemma DownloadErrorsAreNotOk(b: Backend, host: string, bucket: string, key: string, modifier: Modifier)
    ensures var resp := DownloadResponse("get_key", GetKeyResult(b, bucket, key));
      (resp.ErrorJson? ==> resp.status != StatusOK) && (resp.Streamed? ==> resp.status == StatusOK)
    ensures var resp := DownloadResponse("meta_json", MetaJsonResult(b, host, bucket, key, modifier));
      (resp.ErrorJson? ==> resp.status != StatusOK) && (resp.Streamed? ==> resp.status == StatusOK)
  {
    GetKeyStatusMapping(b, bucket, key);
  }

  /** upload_handler */
  method UploadHandler(ctl: IOCtl, shake: Shake256, username: string, req: HttpRequest, key: string) returns (resp: Response)
    ensures resp == UploadResponse(UploadSpec(ctl.backend, ctl.transcodingHost, req, key, UsernameModifier(shake, username)))
  {
    var reply := ctl.Upload(req, key, UsernameModifier(shake, username));
    if reply.Err? {
      return ErrorJson(StatusServiceUnavailable, "upload", reply.error);
    }
    return RepliesJson(StatusOK, "upload", reply.value);
  }

  /** get_handler: the caller's object, under its derived key. */
  method GetHandler(ctl: IOCtl, shake: Shake256, username: string, bucket: string, key: string) returns (resp: Response)
    ensures resp == DownloadResponse("get", GetKeyResult(ctl.backend, bucket, UsernameModifier(shake, username)(key)))
  {
    var status := ctl.Get(bucket, key, UsernameModifier(shake, username));
    if status.err.Some? {
      return ErrorJson(status.code, "get", status.err.value);
    }
    return Streamed(status.code);
  }

  /** get_key_handler: an object by its stored key. */
  method GetKeyHandler(ctl: IOCtl, bucket: string, key: string) returns (resp: Response)
    ensures resp == DownloadResponse("get_key", GetKeyResult(ctl.backend, bucket, key))
  {
    var status := ctl.GetKey(bucket, key);
    if status.err.Some? {
      return ErrorJson(status.code, "get_key", status.err.value);
    }
    return Streamed(status.code);
  }

  /** meta_json_handler */
  method MetaJsonHandler(ctl: IOCtl, shake: Shake256, username: string, bucket: string, key: string) returns (resp: Response)
    ensures resp == DownloadResponse("meta_json", MetaJsonResult(ctl.backend, ctl.transcodingHost, bucket, key, UsernameModifier(shake, username)))
  {
    var status := ctl.MetaJson(bucket, key, UsernameModifier(shake, username));
    if status.err.Some? {
      return ErrorJson(status.code, "meta_json", status.err.value);
    }
    return Streamed(status.code);
  }

  /** A user's download is 404 exactly when the store has no entry under
      that user's derived key. */
  lemma GetNotFound(b: Backend, shake: Shake256, username: string, bucket: string, key: string)
    ensures var mkey := UsernameModifier(shake, username)(key);
      DownloadResponse("get", GetKeyResult(b, bucket, mkey)).status == StatusNotFound <==>
        b.sessionError.None? && b.findBucket(bucket).Ok?
        && b.open(b.findBucket(bucket).value, mkey) == Some(DnetError(ErrNoEntry))
  {
    GetKeyStatusMapping(b, bucket, UsernameModifier(shake, username)(key));
  }
}

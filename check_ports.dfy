/** The port-checking script: the first free port in a range, the ports the
    configuration files ask for, which process holds a port (from `lsof`/`ps` on
    Unix-like systems, from `netstat`/`tasklist` on Windows), and which conflicting
    processes may be killed. Sockets and subprocesses are oracles. */
module CheckPorts {
  import opened Wrappers
  import opened Text

  /** What `connect_ex(('localhost', port))` did: returned an error code, or raised. */
  datatype Connect = Connected(code: int) | ConnectRaised

  /** `check_port_in_use`: a port is taken iff connecting to it succeeds (code 0);
      an exception counts as free. */
  function PortInUse(c: Connect): (inUse: bool)
    ensures inUse ==> c.Connected?
    ensures c.Connected? ==> (inUse <==> c.code == 0)
  {
    c.Connected? && c.code == 0
  }

  /** `find_available_port`: the ports `start`, `start + 1`, ... are tried in turn,
      `maxAttempts` of them, and the first free one is returned. */
  method FindAvailablePort(start: int, maxAttempts: int, connect: int -> Connect) returns (r: Option<int>)
    ensures r.Some? ==> start <= r.value < start + maxAttempts && !PortInUse(connect(r.value))
    ensures r.Some? ==> forall p :: start <= p < r.value ==> PortInUse(connect(p))
    ensures r.None? ==> forall p :: start <= p < start + maxAttempts ==> PortInUse(connect(p))
  {
    var port := start;
    while port < start + maxAttempts
      invariant start <= port || maxAttempts <= 0
      invariant forall p :: start <= p < port ==> PortInUse(connect(p))
      decreases start + maxAttempts - port
    {
      if !PortInUse(connect(port)) {
        return Some(port);
      }
      port := port + 1;
    }
    return None;
  }

  /** A backend environment file that exists: readable line by line (each line with
      its newline), or failing when read. */
  datatype EnvFile = Unreadable | Lines(lines: seq<string>)

  /** `frontend/package.json`: absent, not valid JSON, or valid JSON. */
  datatype PackageJson = NoPackageJson | Malformed | WellFormed

  const BackendEnvFiles: seq<string> := ["backend/.env", "backend/.env.development", "backend/.env.production"]
  const PackageJsonPath: string := "frontend/package.json"
  /** The port Next.js listens on by default. */
  const NextDefaultPort: int := 3000

  /** The index of the first line that starts with `PORT=`. */
  function PortLine(lines: seq<string>): (r: Option<nat>)
    ensures r.Some? ==> r.value < |lines| && StartsWith(lines[r.value], "PORT=")
    ensures r.Some? ==> forall k :: 0 <= k < r.value ==> !StartsWith(lines[k], "PORT=")
    ensures r.None? ==> forall k :: 0 <= k < |lines| ==> !StartsWith(lines[k], "PORT=")
  {
    if lines == [] then None
    else if StartsWith(lines[0], "PORT=") then Some(0)
    else match PortLine(lines[1..])
      case None => None
      case Some(k) => Some(k + 1)
  }

  /** `line.split('=')[1]` for a `PORT=` line: the text after the first `=` up to the
      next one. */
  function PortValue(line: string): (v: string)
    requires StartsWith(line, "PORT=")
    ensures '=' !in v && StartsWith(line[5..], v)
    ensures |v| < |line| - 5 ==> line[5 + |v|] == '='
  {
    var parts := SplitOn(line, '=');
    assert line[..5] == "PORT=";
    FirstInPrefix(line[..4], line[4..], {'='});
    assert line[..4] + line[4..] == line;
    assert parts == [line[..4]] + SplitOn(line[5..], '=');
    var k := FirstIn(line[5..], {'='});
    assert parts[1] == line[5..][..k];
    parts[1]
  }

  /** The port a backend environment file sets: its first `PORT=` line, parsed as an
      integer; a file that cannot be read or whose value does not parse sets none. */
  function EnvPort(f: EnvFile): (r: Option<int>)
    ensures r.Some? ==> f.Lines? && PortLine(f.lines).Some?
  {
    match f
    case Unreadable => None
    case Lines(lines) =>
      match PortLine(lines)
      case None => None
      case Some(k) => ParseInt(PortValue(lines[k]))
  }

  /** Only the first `PORT=` line counts; whatever follows it is ignored. */
  lemma EnvPortFirstLineWins(before: seq<string>, line: string, after: seq<string>)
    requires forall k :: 0 <= k < |before| ==> !StartsWith(before[k], "PORT=")
    requires StartsWith(line, "PORT=")
    ensures EnvPort(Lines(before + [line] + after)) == ParseInt(PortValue(line))
  {
    var lines := before + [line] + after;
    assert lines[|before|] == line;
    assert forall k :: 0 <= k < |before| ==> lines[k] == before[k];
    assert PortLine(lines) == Some(|before|);
  }

  /** The value of a `PORT=` line without a second `=` is the rest of the line. */
  lemma PortValueWhole(v: string)
    requires '=' !in v
    ensures PortValue("PORT=" + v) == v
  {
    var line := "PORT=" + v;
    assert line[5..] == v;
    var w := PortValue(line);
    assert |w| == |v| by {
      assert forall i :: 5 <= i < |line| ==> line[i] != '=';
    }
  }

  /** A file whose first line is `PORT=<n>` sets port n. */
  lemma EnvPortRoundTrip(n: int, rest: seq<string>)
    ensures EnvPort(Lines(["PORT=" + IntToString(n) + "\n"] + rest)) == Some(n)
  {
    var digits := IntToString(n);
    var line := "PORT=" + (digits + "\n");
    assert line == "PORT=" + digits + "\n";
    EnvPortFirstLineWins([], line, rest);
    assert [] + [line] + rest == [line] + rest;
    IntToStringShape(n);
    assert '=' !in digits + "\n";
    PortValueWhole(digits + "\n");
    IntToStringStrip(n);
    ParseIntStrip(digits + "\n");
    ParseIntRoundTrip(n);
    assert ParseInt(PortValue(line)) == Some(n);
  }

  /** `str(n)` is a sign and digits: no blank, no `=`, no `:`. */
  lemma IntToStringShape(n: int)
    ensures var s := IntToString(n);
      s != [] && forall i :: 0 <= i < |s| ==> s[i] == '-' || IsDigit(s[i])
  {
    if n < 0 {
      var d := NatToString(-n);
      assert forall i :: 1 <= i < |d| + 1 == |IntToString(n)| ==> IntToString(n)[i] == d[i - 1];
    }
  }

  /** A written-out number with its newline strips back to the number. */
  lemma IntToStringStrip(n: int)
    ensures Strip(IntToString(n) + "\n") == IntToString(n)
  {
    var s := IntToString(n);
    IntToStringShape(n);
    var first, last := s[0], s[|s| - 1];
    assert first == '-' || '0' <= first <= '9';
    assert last == '-' || '0' <= last <= '9';
    assert !IsSpace(first) && !IsSpace(last);
    StripNewline(s);
  }

  /** The backend ports found in `files`, in order, keyed by path. */
  function EnvPorts(files: seq<string>, env: map<string, EnvFile>): map<string, int> {
    if files == [] then map[]
    else
      var m := EnvPorts(files[..|files| - 1], env);
      var path := files[|files| - 1];
      if path in env && EnvPort(env[path]).Some? then m[path := EnvPort(env[path]).value] else m
  }

  /** `check_config_files` in terms of its inputs: the existing environment files
      (`env`, keyed by path) and the state of `package.json`. */
  function ConfigPorts(env: map<string, EnvFile>, pkg: PackageJson): map<string, int> {
    var m := EnvPorts(BackendEnvFiles, env);
    if pkg == WellFormed then m[PackageJsonPath := NextDefaultPort] else m
  }

  /** A path gets a port iff it is one of the listed files, exists, and sets one. */
  lemma {:induction false} EnvPortsSpec(files: seq<string>, env: map<string, EnvFile>)
    ensures forall path :: (path in EnvPorts(files, env)
      <==> path in files && path in env && EnvPort(env[path]).Some?)
    ensures forall path :: path in EnvPorts(files, env) ==> EnvPorts(files, env)[path] == EnvPort(env[path]).value
  {
    if files != [] {
      var init := files[..|files| - 1];
      EnvPortsSpec(init, env);
      assert files == init + [files[|files| - 1]];
      forall path | path in files
        ensures path in init || path == files[|files| - 1]
      {
      }
    }
  }

  /** What `check_config_files` reports: each backend file that exists and sets a
      parsable `PORT=` has that port (a failing file does not stop the others), and
      a valid `package.json` always stands for port 3000. */
  lemma ConfigPortsSpec(env: map<string, EnvFile>, pkg: PackageJson)
    ensures var ports := ConfigPorts(env, pkg);
      forall path :: path in BackendEnvFiles ==>
        (path in ports <==> path in env && EnvPort(env[path]).Some?)
        && (path in ports ==> ports[path] == EnvPort(env[path]).value)
    ensures var ports := ConfigPorts(env, pkg);
      (PackageJsonPath in ports <==> pkg == WellFormed)
      && (PackageJsonPath in ports ==> ports[PackageJsonPath] == 3000)
    ensures ConfigPorts(env, pkg).Keys <= set path | path in BackendEnvFiles + [PackageJsonPath]
  {
    EnvPortsSpec(BackendEnvFiles, env);
    assert PackageJsonPath !in BackendEnvFiles;
  }

  /** One more file extends the found ports by that file's port, if it sets one. */
  lemma EnvPortsStep(files: seq<string>, i: nat, env: map<string, EnvFile>)
    requires i < |files|
    ensures var path := files[i];
      EnvPorts(files[..i + 1], env)
      == if path in env && EnvPort(env[path]).Some?
         then EnvPorts(files[..i], env)[path := EnvPort(env[path]).value]
         else EnvPorts(files[..i], env)
  {
    assert files[..i + 1][..i] == files[..i];
  }

  /** The inner loop of `check_config_files` over one file's lines: the value of the
      first `PORT=` line, when it parses; the loop stops at that line either way. */
  method FirstPortSetting(lines: seq<string>) returns (port: Option<int>)
    ensures port == EnvPort(Lines(lines))
  {
    var j := 0;
    while j < |lines|
      invariant 0 <= j <= |lines|
      invariant forall k :: 0 <= k < j ==> !StartsWith(lines[k], "PORT=")
    {
      if StartsWith(lines[j], "PORT=") {
        assert PortLine(lines) == Some(j);
        return ParseInt(PortValue(lines[j]));
      }
      j := j + 1;
    }
    return None;
  }

  /** `check_config_files`: each environment file is read up to its first `PORT=`
      line; `package.json` is recorded as 3000 when it parses. */
  method CheckConfigFiles(env: map<string, EnvFile>, pkg: PackageJson) returns (ports: map<string, int>)
    ensures ports == ConfigPorts(env, pkg)
  {
    ports := map[];
    for i := 0 to |BackendEnvFiles|
      invariant ports == EnvPorts(BackendEnvFiles[..i], env)
    {
      var path := BackendEnvFiles[i];
      var port: Option<int> := None;
      if path in env {
        match env[path] {
          case Unreadable =>
          case Lines(lines) =>
            port := FirstPortSetting(lines);
        }
      }
      EnvPortsStep(BackendEnvFiles, i, env);
      if port.Some? {
        ports := ports[path := port.value];
      }
    }
    assert BackendEnvFiles[..|BackendEnvFiles|] == BackendEnvFiles;
    if pkg == WellFormed {
      ports := ports[PackageJsonPath := NextDefaultPort];
    }
  }

  /** What a subprocess returned. */
  datatype CommandResult = CommandResult(returncode: int, stdout: string)

  /** The process found on a port. */
  datatype ProcessInfo = ProcessInfo(pid: int, ppid: int, command: string)

  /** The first line of `lsof -t` output, when the command succeeded and printed
      something: the PID handed to `ps`. */
  function LsofPid(lsof: CommandResult): (r: Option<string>)
    ensures r.Some? <==> lsof.returncode == 0 && Strip(lsof.stdout) != []
    ensures r.Some? ==> IsField(r.value) && '\n' !in r.value && StartsWith(Strip(lsof.stdout), r.value)
  {
    var out := Strip(lsof.stdout);
    if lsof.returncode == 0 && out != [] then
      var k := FirstIn(out, {'\n'});
      assert SplitOn(out, '\n')[0] == out[..k];
      assert k > 0 by {
        assert out[0] != '\n';
      }
      Some(SplitOn(out, '\n')[0])
    else
      None
  }

  /** The second line of `ps -o pid,ppid,command` output, split into at most three
      fields: PID, parent PID and command (`Unknown` when missing). A missing field
      or a non-numeric PID raises inside the guard and gives nothing. */
  function ParsePs(stdout: string): (r: Option<ProcessInfo>)
    ensures r.Some? ==> r.value.command == "Unknown" || IsField(r.value.command)
  {
    var lines := SplitOn(Strip(stdout), '\n');
    if |lines| <= 1 then None
    else
      var parts := SplitFields(lines[1], 2);
      if |parts| < 2 then None
      else match (ParseInt(parts[0]), ParseInt(parts[1]))
        case (Some(pid), Some(ppid)) => Some(ProcessInfo(pid, ppid, if |parts| > 2 then parts[2] else "Unknown"))
        case _ => None
  }

  /** The header line `ps -o pid,ppid,command` prints, and the same header once
      the output is stripped. */
  const PsHeaderStripped: string := "PID  PPID COMMAND"
  const PsHeader: string := "  " + PsHeaderStripped

  /** `ps` output as it prints one process under its header line. */
  function PsOutput(info: ProcessInfo): string {
    PsHeader + "\n" + PsLine(info) + "\n"
  }

  function PsLine(info: ProcessInfo): string {
    IntToString(info.pid) + " " + IntToString(info.ppid) + " " + info.command
  }

  /** Stripping the output removes the header's indentation and the final newline. */
  lemma PsOutputStrip(line: string)
    requires line != [] && !IsSpace(line[|line| - 1])
    ensures Strip(PsHeader + "\n" + line + "\n") == PsHeaderStripped + "\n" + line
  {
    PsHeaderIndent(line);
    StripIndentedLines("  ", PsHeaderStripped, "\n" + line + "\n", "\n" + line);
  }

  lemma PsHeaderIndent(line: string)
    requires line != [] && !IsSpace(line[|line| - 1])
    ensures PsHeader + "\n" + line + "\n" == "  " + PsHeaderStripped + ("\n" + line + "\n")
    ensures PsHeaderStripped + ("\n" + line) == PsHeaderStripped + "\n" + line
    ensures forall i :: 0 <= i < |"  "| ==> IsSpace("  "[i])
    ensures PsHeaderStripped != [] && !IsSpace(PsHeaderStripped[0])
    ensures !IsSpace(("\n" + line)[|"\n" + line| - 1]) && "\n" + line + "\n" == ("\n" + line) + "\n"
  {
  }

  /** An indented text followed by a newline loses the indentation and the newline. */
  lemma StripIndentedLines(indent: string, first: string, rest: string, body: string)
    requires forall i :: 0 <= i < |indent| ==> IsSpace(indent[i])
    requires first != [] && !IsSpace(first[0])
    requires body != [] && !IsSpace(body[|body| - 1]) && rest == body + "\n"
    ensures Strip(indent + first + rest) == first + body
  {
    var s := first + body;
    assert indent + first + rest == indent + s + "\n";
    assert s[0] == first[0] && s[|s| - 1] == body[|body| - 1];
    StripPadded(indent, s, "\n");
  }

  /** The stripped output is the header line and the process line. */
  lemma PsOutputLines(line: string)
    requires '\n' !in line
    ensures SplitOn(PsHeaderStripped + "\n" + line, '\n') == [PsHeaderStripped, line]
  {
    SplitTwoLines(PsHeaderStripped, line);
  }

  /** Two lines joined by a newline split back into those two lines. */
  lemma SplitTwoLines(first: string, line: string)
    requires '\n' !in first && '\n' !in line
    ensures SplitOn(first + "\n" + line, '\n') == [first, line]
  {
    var text := first + "\n" + line;
    FirstInPrefix(first, "\n" + line, {'\n'});
    assert text == first + ("\n" + line);
    assert text[|first| + 1..] == line;
    FirstInPrefix(line, "", {'\n'});
    assert line + "" == line;
  }

  /** The process line splits into the PID, the parent PID and the whole command. */
  lemma PsLineFields(info: ProcessInfo)
    requires IsField(info.command)
    ensures SplitFields(PsLine(info), 2) == [IntToString(info.pid), IntToString(info.ppid), info.command]
  {
    var pid, ppid, cmd := IntToString(info.pid), IntToString(info.ppid), info.command;
    IntToStringShape(info.pid);
    IntToStringShape(info.ppid);
    assert IsWord(pid) && IsWord(ppid);
    PsLineShape(info);
    SplitFieldsCons(pid, ppid + " " + cmd, 2);
    SplitFieldsCons(ppid, cmd, 1);
    assert SkipSpace(cmd) == cmd;
  }

  lemma PsLineShape(info: ProcessInfo)
    ensures PsLine(info) == IntToString(info.pid) + " " + (IntToString(info.ppid) + " " + info.command)
  {
  }

  /** `ps` lines are read back as printed: the PID, the parent PID, and the whole
      command including its inner blanks. */
  lemma ParsePsRoundTrip(info: ProcessInfo)
    requires IsField(info.command) && !IsSpace(info.command[|info.command| - 1])
    requires '\n' !in info.command
    ensures ParsePs(PsOutput(info)) == Some(info)
  {
    var line := PsLine(info);
    IntToStringShape(info.pid);
    IntToStringShape(info.ppid);
    assert line[|line| - 1] == info.command[|info.command| - 1];
    assert forall i :: 0 <= i < |line| ==> line[i] != '\n';
    PsOutputStrip(line);
    PsOutputLines(line);
    PsLineFields(info);
    ParseIntRoundTrip(info.pid);
    ParseIntRoundTrip(info.ppid);
  }

  /** The Unix branch of `get_process_using_port`: the PID `lsof` reports, then its
      entry in `ps` (the `ps` reply is the one for that PID). */
  function UnixProcess(lsof: CommandResult, ps: CommandResult): (r: Option<ProcessInfo>)
    ensures r.Some? ==> LsofPid(lsof).Some? && ps.returncode == 0 && r == ParsePs(ps.stdout)
    ensures LsofPid(lsof).Some? && ps.returncode == 0 ==> r == ParsePs(ps.stdout)
  {
    if LsofPid(lsof).None? || ps.returncode != 0 then None else ParsePs(ps.stdout)
  }

  /** The netstat filter as written: the line contains `:<port>` anywhere, and
      `LISTENING`. */
  predicate NetstatLineMatchesAsWritten(line: string, port: int) {
    Contains(line, ":" + IntToString(port)) && Contains(line, "LISTENING")
  }

  /** The netstat filter as intended: the local address (the second field) ends in
      `:<port>`, and the line is `LISTENING`. */
  predicate NetstatLineMatches(line: string, port: int) {
    var parts := SplitFields(line, -1);
    |parts| >= 2 && EndsWith(parts[1], ":" + IntToString(port)) && Contains(line, "LISTENING")
  }

  /** Two colon-prefixed, colon-free suffixes of the same string are the same. */
  lemma ColonSuffixUnique(a: string, x: string, y: string)
    requires ':' !in x && ':' !in y
    requires EndsWith(a, ":" + x) && EndsWith(a, ":" + y)
    ensures x == y
  {
    assert a[|a| - |x|..] == x && a[|a| - |x| - 1] == ':';
    assert a[|a| - |y|..] == y && a[|a| - |y| - 1] == ':';
    assert forall i :: |a| - |x| <= i < |a| ==> a[i] != ':';
    assert forall i :: |a| - |y| <= i < |a| ==> a[i] != ':';
  }

  /** The intended filter accepts a line for one port only. */
  lemma NetstatLineMatchesOnePort(line: string, p: int, q: int)
    requires NetstatLineMatches(line, p) && NetstatLineMatches(line, q)
    ensures p == q
  {
    IntToStringShape(p);
    IntToStringShape(q);
    var local := SplitFields(line, -1)[1];
    ColonSuffixUnique(local, IntToString(p), IntToString(q));
    ParseIntRoundTrip(p);
    ParseIntRoundTrip(q);
  }

  /** The columns of a `netstat -ano` row: protocol, local address, foreign
      address, state, PID. */
  const ListeningColumns: seq<string> := ["TCP", "0.0.0.0:50001", "0.0.0.0:0", "LISTENING", "4242"]
  const ListeningOn50001: string := Join(ListeningColumns, ' ')

  lemma ExamplePortStrings()
    ensures IntToString(5000) == "5000" && IntToString(50001) == "50001"
  {
    assert NatToString(5) == "5";
    assert NatToString(50) == "50";
    assert NatToString(500) == "500";
    assert NatToString(5000) == "5000";
  }

  lemma ListeningColumnsAreWords()
    ensures forall i :: 0 <= i < |ListeningColumns| ==> IsField(ListeningColumns[i]) && IsWord(ListeningColumns[i])
  {
    var ws := ListeningColumns;
    assert IsWord(ws[0]) && IsWord(ws[1]);
    assert IsWord(ws[2]) && IsWord(ws[3]) && IsWord(ws[4]);
  }

  /** The example row splits into its five columns. */
  lemma ListeningRowFields()
    ensures SplitFields(ListeningOn50001, -1) == ListeningColumns
  {
    ListeningColumnsAreWords();
    SplitFieldsJoin(ListeningColumns);
  }

  /** The example row contains `:5000` (inside `:50001`) and `LISTENING`. */
  lemma ListeningRowContains()
    ensures Contains(ListeningOn50001, ":5000") && Contains(ListeningOn50001, "LISTENING")
  {
    JoinContainsPart(ListeningColumns, ' ', 1);
    JoinContainsPart(ListeningColumns, ' ', 3);
    assert ListeningColumns[1] == "0.0.0.0" + ":5000" + "1";
    ContainsMiddle("0.0.0.0", ":5000", "1");
    ContainsTrans(ListeningOn50001, ListeningColumns[1], ":5000");
  }

  /** As written, asking about port 5000 also picks up the process listening on
      port 50001; the intended filter picks it up for 50001 only. */
  lemma NetstatSubstringMatch()
    ensures NetstatLineMatchesAsWritten(ListeningOn50001, 5000)
    ensures NetstatLineMatches(ListeningOn50001, 50001)
    ensures !NetstatLineMatches(ListeningOn50001, 5000)
  {
    NetstatAsWrittenMatchesLongerPort();
    NetstatMatchesOwnPort();
    if NetstatLineMatches(ListeningOn50001, 5000) {
      NetstatLineMatchesOnePort(ListeningOn50001, 5000, 50001);
    }
  }

  lemma NetstatAsWrittenMatchesLongerPort()
    ensures NetstatLineMatchesAsWritten(ListeningOn50001, 5000)
  {
    ExamplePortStrings();
    ListeningRowContains();
    assert ":" + IntToString(5000) == ":5000";
  }

  lemma NetstatMatchesOwnPort()
    ensures NetstatLineMatches(ListeningOn50001, 50001)
  {
    ListeningRowFields();
    ListeningRowContains();
    LocalAddressPort();
  }

  /** The local-address column of the example row ends in `:50001`. */
  lemma LocalAddressPort()
    ensures EndsWith(ListeningColumns[1], ":" + IntToString(50001))
  {
    ExamplePortStrings();
    var local := ListeningColumns[1];
    assert local == "0.0.0.0:50001";
    assert local[|local| - 6..] == ":50001";
  }

  /** The image name in the second line of `tasklist /FO CSV` output: its first
      comma-separated column without the surrounding quotes. */
  function TasklistCommand(tasklist: CommandResult): (r: Option<string>)
    ensures r.Some? ==> tasklist.returncode == 0 && ',' !in r.value
    ensures r.Some? && r.value != [] ==> r.value[0] != '"' && r.value[|r.value| - 1] != '"'
  {
    var lines := SplitOn(Strip(tasklist.stdout), '\n');
    if tasklist.returncode != 0 || |lines| <= 1 then None
    else
      var column := SplitOn(lines[1], ',')[0];
      Some(StripChars(column, {'"'}))
  }

  /** A CSV column in double quotes, as `tasklist /FO CSV` prints it. */
  function Quote(s: string): string {
    "\"" + s + "\""
  }

  /** The header line of `tasklist /FO CSV`. */
  const TasklistHeader: string := Quote("Image Name") + "," + Quote("PID") + "," + Quote("Session Name")
    + "," + Quote("Session#") + "," + Quote("Mem Usage")

  lemma TasklistHeaderShape()
    ensures TasklistHeader != [] && !IsSpace(TasklistHeader[0])
    ensures '\n' !in TasklistHeader
  {
    assert TasklistHeader[0] == '"';
    assert '\n' !in "Image Name" && '\n' !in "Session Name" && '\n' !in "Mem Usage";
    assert '\n' !in "PID" && '\n' !in "Session#";
  }

  /** A `tasklist /FO CSV` row: the quoted image name, then the other columns. */
  function TasklistRow(name: string, columns: string): string {
    Quote(name) + "," + columns
  }

  /** `tasklist /FO CSV` output as it prints one process under its header line. */
  function TasklistOutput(name: string, columns: string): string {
    TasklistHeader + "\n" + TasklistRow(name, columns) + "\n"
  }

  /** The image name printed by `tasklist` is read back as printed, provided it
      holds no comma or newline and does not start or end with a quote. */
  lemma TasklistRoundTrip(name: string, columns: string)
    requires name != [] && name[0] != '"' && name[|name| - 1] != '"'
    requires ',' !in name && '\n' !in name
    requires columns != [] && !IsSpace(columns[|columns| - 1]) && '\n' !in columns
    ensures TasklistCommand(CommandResult(0, TasklistOutput(name, columns))) == Some(name)
  {
    var row := TasklistRow(name, columns);
    TasklistHeaderShape();
    TasklistOutputStrip(name, columns);
    assert '\n' !in row by {
      assert forall i :: 0 <= i < |row| ==> row[i] == '"' || row[i] == ',' || row[i] in name || row[i] in columns;
    }
    SplitTwoLines(TasklistHeader, row);
    TasklistFirstColumn(name, columns);
    StripQuotes(name);
  }

  /** Stripping the output removes only the final newline. */
  lemma TasklistOutputStrip(name: string, columns: string)
    requires columns != [] && !IsSpace(columns[|columns| - 1])
    ensures Strip(TasklistOutput(name, columns)) == TasklistHeader + "\n" + TasklistRow(name, columns)
  {
    var row := TasklistRow(name, columns);
    assert row[|row| - 1] == columns[|columns| - 1];
    assert TasklistOutput(name, columns) == "" + TasklistHeader + ("\n" + row + "\n");
    TasklistHeaderShape();
    assert ("\n" + row)[|"\n" + row| - 1] == row[|row| - 1];
    StripIndentedLines("", TasklistHeader, "\n" + row + "\n", "\n" + row);
    assert TasklistHeader + ("\n" + row) == TasklistHeader + "\n" + row;
  }

  /** The first comma-separated column of a row is the quoted image name. */
  lemma TasklistFirstColumn(name: string, columns: string)
    requires ',' !in name
    ensures SplitOn(TasklistRow(name, columns), ',')[0] == Quote(name)
  {
    var quoted := Quote(name);
    var row := TasklistRow(name, columns);
    assert forall i :: 0 <= i < |quoted| ==> quoted[i] !in {','} by {
      assert forall i :: 0 < i < |quoted| - 1 ==> quoted[i] == name[i - 1];
    }
    assert row == quoted + ("," + columns);
    FirstInPrefix(quoted, "," + columns, {','});
    assert row[..|quoted|] == quoted;
  }

  /** Stripping quotes from a quoted name gives the name back. */
  lemma StripQuotes(name: string)
    requires name != [] && name[0] != '"' && name[|name| - 1] != '"'
    ensures StripChars(Quote(name), {'"'}) == name
  {
    var quoted := Quote(name);
    assert quoted[1..] == name + "\"";
    assert TrimLeft(quoted, {'"'}) == TrimLeft(name + "\"", {'"'});
    assert TrimLeft(name + "\"", {'"'}) == name + "\"";
    assert (name + "\"")[..|name|] == name;
    assert TrimRight(name + "\"", {'"'}) == TrimRight(name, {'"'});
    assert TrimRight(name, {'"'}) == name;
  }

  /** The two `netstat` line filters: the one `get_process_using_port` applies
      (`AsWritten`) and the intended one that reads the local-address column
      (`PortColumn`). */
  datatype NetstatFilter = AsWritten | PortColumn

  predicate Qualifies(filter: NetstatFilter, line: string, port: int) {
    match filter
    case AsWritten => NetstatLineMatchesAsWritten(line, port)
    case PortColumn => NetstatLineMatches(line, port)
  }

  /** The PID column of a `netstat` line: its last field. */
  function LastField(line: string): string {
    var parts := SplitFields(line, -1);
    if parts == [] then "" else parts[|parts| - 1]
  }

  /** A `netstat` line that the filter accepts for `port`, with at least five fields,
      the last of which is the PID `pid`. */
  predicate ListenerLine(filter: NetstatFilter, line: string, port: int, pid: int) {
    Qualifies(filter, line, port) && |SplitFields(line, -1)| >= 5 && ParseInt(LastField(line)) == Some(pid)
  }

  /** A line the scan passes over: not accepted, too short, or a PID whose
      `tasklist` lookup fails. */
  predicate PassedOver(filter: NetstatFilter, line: string, port: int, tasklist: int -> CommandResult) {
    !Qualifies(filter, line, port) || |SplitFields(line, -1)| < 5
    || (ParseInt(LastField(line)).Some? && TasklistCommand(tasklist(ParseInt(LastField(line)).value)).None?)
  }

  /** The Windows branch of `get_process_using_port` over the lines of `netstat -ano`:
      the first line accepted by the filter for the port, with at least five fields,
      whose `tasklist` lookup succeeds gives the process (its PID is the last field,
      its parent is reported as 0). A non-numeric PID raises inside the guard, which
      ends the search with nothing. */
  function ScanNetstat(filter: NetstatFilter, lines: seq<string>, port: int, tasklist: int -> CommandResult): (r: Option<ProcessInfo>)
    ensures r.Some? ==> r.value.ppid == 0 && TasklistCommand(tasklist(r.value.pid)) == Some(r.value.command)
    ensures r.Some? ==> exists i :: 0 <= i < |lines| && ListenerLine(filter, lines[i], port, r.value.pid)
  {
    if lines == [] then None
    else
      var rest := ScanNetstat(filter, lines[1..], port, tasklist);
      assert rest.Some? ==> exists i :: 0 <= i < |lines| && ListenerLine(filter, lines[i], port, rest.value.pid) by {
        if rest.Some? {
          var i :| 0 <= i < |lines[1..]| && ListenerLine(filter, lines[1..][i], port, rest.value.pid);
          assert lines[i + 1] == lines[1..][i];
        }
      }
      if !Qualifies(filter, lines[0], port) || |SplitFields(lines[0], -1)| < 5 then rest
      else match ParseInt(LastField(lines[0]))
        case None => None
        case Some(pid) =>
          match TasklistCommand(tasklist(pid))
          case Some(command) => Some(ProcessInfo(pid, 0, command))
          case None => rest
  }

  /** A line that is passed over leaves the result to the lines after it. */
  lemma ScanNetstatSkip(filter: NetstatFilter, lines: seq<string>, port: int, tasklist: int -> CommandResult)
    requires lines != [] && PassedOver(filter, lines[0], port, tasklist)
    ensures ScanNetstat(filter, lines, port, tasklist) == ScanNetstat(filter, lines[1..], port, tasklist)
  {
  }

  /** A listening first line whose lookup succeeds is the result. */
  lemma ScanNetstatHit(filter: NetstatFilter, lines: seq<string>, port: int, tasklist: int -> CommandResult, pid: int)
    requires lines != [] && ListenerLine(filter, lines[0], port, pid)
    requires TasklistCommand(tasklist(pid)).Some?
    ensures ScanNetstat(filter, lines, port, tasklist) == Some(ProcessInfo(pid, 0, TasklistCommand(tasklist(pid)).value))
  {
  }

  /** Every line of a suffix past the first is passed over when it was in `lines`. */
  lemma PassedOverTail(filter: NetstatFilter, lines: seq<string>, port: int, tasklist: int -> CommandResult, i: int)
    requires 0 < i <= |lines|
    requires forall j :: 0 <= j < i ==> PassedOver(filter, lines[j], port, tasklist)
    ensures PassedOver(filter, lines[0], port, tasklist)
    ensures forall j :: 0 <= j < i - 1 ==> PassedOver(filter, lines[1..][j], port, tasklist)
  {
    forall j | 0 <= j < i - 1
      ensures PassedOver(filter, lines[1..][j], port, tasklist)
    {
      assert lines[1..][j] == lines[j + 1];
    }
  }

  /** Lines that are passed over do not change the result: the scan of `lines`
      is the scan of what follows them. */
  lemma {:induction false} ScanNetstatSkipPrefix(filter: NetstatFilter, lines: seq<string>, port: int,
                                                 tasklist: int -> CommandResult, i: int)
    requires 0 <= i <= |lines|
    requires forall j :: 0 <= j < i ==> PassedOver(filter, lines[j], port, tasklist)
    ensures ScanNetstat(filter, lines, port, tasklist) == ScanNetstat(filter, lines[i..], port, tasklist)
  {
    if i > 0 {
      PassedOverTail(filter, lines, port, tasklist, i);
      ScanNetstatSkip(filter, lines, port, tasklist);
      ScanNetstatSkipPrefix(filter, lines[1..], port, tasklist, i - 1);
      assert lines[1..][i - 1..] == lines[i..];
    }
  }

  /** The scan returns the first listening line whose lookup succeeds, provided
      every line before it is passed over. */
  lemma ScanNetstatFirst(filter: NetstatFilter, lines: seq<string>, port: int,
                         tasklist: int -> CommandResult, i: int, pid: int)
    requires 0 <= i < |lines| && ListenerLine(filter, lines[i], port, pid)
    requires TasklistCommand(tasklist(pid)).Some?
    requires forall j :: 0 <= j < i ==> PassedOver(filter, lines[j], port, tasklist)
    ensures ScanNetstat(filter, lines, port, tasklist) == Some(ProcessInfo(pid, 0, TasklistCommand(tasklist(pid)).value))
  {
    ScanNetstatSkipPrefix(filter, lines, port, tasklist, i);
    assert lines[i..][0] == lines[i];
    ScanNetstatHit(filter, lines[i..], port, tasklist, pid);
  }

  /** When every line is passed over, the scan finds nothing. */
  lemma ScanNetstatNone(filter: NetstatFilter, lines: seq<string>, port: int, tasklist: int -> CommandResult)
    requires forall j :: 0 <= j < |lines| ==> PassedOver(filter, lines[j], port, tasklist)
    ensures ScanNetstat(filter, lines, port, tasklist).None?
  {
    ScanNetstatSkipPrefix(filter, lines, port, tasklist, |lines|);
    assert lines[|lines|..] == [];
  }

  /** An accepted line whose PID column is not a number ends the scan with
      nothing, even when a later line would have matched, provided every line
      before it is passed over. */
  lemma ScanNetstatStopsAtBadPid(filter: NetstatFilter, lines: seq<string>, port: int,
                                 tasklist: int -> CommandResult, i: int)
    requires 0 <= i < |lines| && Qualifies(filter, lines[i], port) && |SplitFields(lines[i], -1)| >= 5
    requires ParseInt(LastField(lines[i])).None?
    requires forall j :: 0 <= j < i ==> PassedOver(filter, lines[j], port, tasklist)
    ensures ScanNetstat(filter, lines, port, tasklist).None?
  {
    ScanNetstatSkipPrefix(filter, lines, port, tasklist, i);
    assert lines[i..][0] == lines[i];
  }

  lemma PidString()
    ensures IntToString(4242) == "4242"
  {
    assert NatToString(4) == "4";
    assert NatToString(42) == "42";
    assert NatToString(424) == "424";
  }

  /** The example row carries PID 4242 in its last column. */
  lemma ListeningRowPid()
    ensures |SplitFields(ListeningOn50001, -1)| == 5
    ensures ParseInt(LastField(ListeningOn50001)) == Some(4242)
  {
    ListeningRowFields();
    PidString();
    ParseIntRoundTrip(4242);
  }

  /** At the level of the whole scan: asking as written about port 5000 reports the
      process listening on port 50001; the intended filter reports nothing. */
  lemma ScanNetstatSubstringMatch(tasklist: int -> CommandResult)
    requires TasklistCommand(tasklist(4242)).Some?
    ensures ScanNetstat(AsWritten, [ListeningOn50001], 5000, tasklist)
         == Some(ProcessInfo(4242, 0, TasklistCommand(tasklist(4242)).value))
    ensures ScanNetstat(PortColumn, [ListeningOn50001], 5000, tasklist).None?
  {
    NetstatSubstringMatch();
    ListeningRowPid();
    ScanNetstatFirst(AsWritten, [ListeningOn50001], 5000, tasklist, 0, 4242);
    ScanNetstatNone(PortColumn, [ListeningOn50001], 5000, tasklist);
  }

  /** With the intended filter, whatever the scan reports listens on the port asked
      about and on no other. */
  lemma ScanPortColumnOnePort(lines: seq<string>, p: int, q: int, tasklist: int -> CommandResult)
    requires ScanNetstat(PortColumn, lines, p, tasklist).Some?
    ensures exists i :: 0 <= i < |lines| && NetstatLineMatches(lines[i], p) && (NetstatLineMatches(lines[i], q) ==> p == q)
  {
    var r := ScanNetstat(PortColumn, lines, p, tasklist);
    var i :| 0 <= i < |lines| && ListenerLine(PortColumn, lines[i], p, r.value.pid);
    if NetstatLineMatches(lines[i], q) {
      NetstatLineMatchesOnePort(lines[i], p, q);
    }
  }

  /** The platforms `get_process_using_port` tells apart. */
  datatype Platform = Darwin | Linux | Windows | OtherPlatform

  /** `get_process_using_port`: `lsof`/`ps` on macOS and Linux, `netstat`/`tasklist`
      on Windows, nothing elsewhere. */
  function ProcessUsingPort(platform: Platform, port: int, lsof: CommandResult, ps: CommandResult,
                            netstat: CommandResult, tasklist: int -> CommandResult): (r: Option<ProcessInfo>)
    ensures platform == OtherPlatform ==> r.None?
    ensures (platform == Darwin || platform == Linux) ==> r == UnixProcess(lsof, ps)
    ensures platform == Windows && netstat.returncode != 0 ==> r.None?
    ensures platform == Windows && netstat.returncode == 0 ==>
      r == ScanNetstat(AsWritten, SplitOn(netstat.stdout, '\n'), port, tasklist)
  {
    match platform
    case Darwin => UnixProcess(lsof, ps)
    case Linux => UnixProcess(lsof, ps)
    case Windows =>
      if netstat.returncode == 0 then ScanNetstat(AsWritten, SplitOn(netstat.stdout, '\n'), port, tasklist) else None
    case OtherPlatform => None
  }

  /** The ports `fix_port_conflicts` always looks at. */
  const CommonPorts: seq<int> := [3000, 5000, 5001, 8000, 8080]

  /** A port in use, with the process holding it if that could be found. */
  datatype Conflict = Conflict(port: int, info: Option<ProcessInfo>)

  /** The conflicts among `ports`, in order. */
  function Conflicts(ports: seq<int>, connect: int -> Connect, process: int -> Option<ProcessInfo>): seq<Conflict> {
    if ports == [] then []
    else
      var init := Conflicts(ports[..|ports| - 1], connect, process);
      var port := ports[|ports| - 1];
      if PortInUse(connect(port)) then init + [Conflict(port, process(port))] else init
  }

  /** A conflict is recorded for exactly the ports in use, with whatever process
      lookup found, and never for a free port. */
  lemma {:induction false} ConflictsSpec(ports: seq<int>, connect: int -> Connect, process: int -> Option<ProcessInfo>)
    ensures forall c :: (c in Conflicts(ports, connect, process)
      ==> c.port in ports && PortInUse(connect(c.port)) && c.info == process(c.port))
    ensures forall p :: (p in ports && PortInUse(connect(p))
      ==> Conflict(p, process(p)) in Conflicts(ports, connect, process))
  {
    if ports != [] {
      var init := ports[..|ports| - 1];
      ConflictsSpec(init, connect, process);
      assert ports == init + [ports[|ports| - 1]];
      forall p | p in ports
        ensures p in init || p == ports[|ports| - 1]
      {
      }
    }
  }

  /** The survey loop of `fix_port_conflicts` over the common ports. */
  method CollectConflicts(connect: int -> Connect, process: int -> Option<ProcessInfo>) returns (conflicts: seq<Conflict>)
    ensures conflicts == Conflicts(CommonPorts, connect, process)
  {
    conflicts := [];
    for i := 0 to |CommonPorts|
      invariant conflicts == Conflicts(CommonPorts[..i], connect, process)
    {
      var port := CommonPorts[i];
      assert CommonPorts[..i + 1][..i] == CommonPorts[..i];
      if PortInUse(connect(port)) {
        var info := process(port);
        conflicts := conflicts + [Conflict(port, info)];
      }
    }
    assert CommonPorts[..|CommonPorts|] == CommonPorts;
  }

  /** The words that mark a process as one of the project's own services. */
  const ServiceKeywords: seq<string> := ["python", "node", "npm", "flask", "next"]

  /** Some keyword of `keywords` occurs in `s` (`any(k in s for k in keywords)`). */
  function ContainsAny(s: string, keywords: seq<string>): (r: bool)
    ensures r <==> exists i :: 0 <= i < |keywords| && Contains(s, keywords[i])
  {
    if keywords == [] then false
    else if Contains(s, keywords[0]) then true
    else
      var r := ContainsAny(s, keywords[1..]);
      assert r ==> exists i :: 0 <= i < |keywords| && Contains(s, keywords[i]) by {
        if r {
          var i :| 0 <= i < |keywords[1..]| && Contains(s, keywords[1..][i]);
          assert keywords[i + 1] == keywords[1..][i];
        }
      }
      r
  }

  /** The keyword test: the lower-cased command contains one of the keywords. */
  function IsOurService(command: string): (r: bool)
    ensures r <==> exists i :: 0 <= i < |ServiceKeywords| && Contains(Lower(command), ServiceKeywords[i])
  {
    ContainsAny(Lower(command), ServiceKeywords)
  }

  /** The keyword test ignores case. */
  lemma IsOurServiceIgnoresCase(command: string)
    ensures IsOurService(Lower(command)) == IsOurService(command)
  {
    assert Lower(Lower(command)) == Lower(command);
  }

  /** The answers that count as consent to a kill; anything else, the empty default
      included, is a refusal. */
  const ConsentAnswers: set<string> := {"y", "yes", "是"}

  /** The answer is stripped and lower-cased before it is compared. */
  function KillConsent(answer: string): (r: bool)
    ensures r ==> exists i :: 0 <= i < |answer| && !IsSpace(answer[i])
  {
    Lower(Strip(answer)) in ConsentAnswers
  }

  /** Blanks typed around the answer do not matter; only the lower-cased word does. */
  lemma KillConsentPadded(pre: string, w: string, post: string)
    requires forall i :: 0 <= i < |pre| ==> IsSpace(pre[i])
    requires forall i :: 0 <= i < |post| ==> IsSpace(post[i])
    requires w != [] && !IsSpace(w[0]) && !IsSpace(w[|w| - 1])
    ensures KillConsent(pre + w + post) <==> Lower(w) in ConsentAnswers
  {
    StripPadded(pre, w, post);
  }

  lemma LowerExamples()
    ensures Lower("Yes") == "yes" && Lower("Y") == "y" && Lower("是") == "是"
    ensures Lower("n") == "n" && |Lower("yeah")| == 4
  {
    assert LowerChar('Y') == 'y';
  }

  /** ` Yes ` typed with blanks around it is consent. */
  lemma KillConsentAcceptsYes()
    ensures KillConsent(" " + "Yes" + " ")
  {
    LowerExamples();
    KillConsentPadded(" ", "Yes", " ");
  }

  /** A single-word answer is consent iff its lower-case form is listed. */
  lemma KillConsentWord(w: string)
    requires w != [] && IsWord(w)
    ensures KillConsent(w) <==> Lower(w) in ConsentAnswers
  {
    StripUnchanged(w);
  }

  /** `Y` and `是` are consent; the empty default and `n` are refusals. */
  lemma KillConsentExamples()
    ensures KillConsent("Y") && KillConsent("是")
    ensures !KillConsent("") && !KillConsent("n")
  {
    LowerExamples();
    KillConsentWord("Y");
    KillConsentWord("是");
    KillConsentWord("n");
    StripUnchanged("");
  }

  /** Only the listed words count: `yeah` is a refusal. */
  lemma KillConsentIsExact()
    ensures !KillConsent("yeah")
  {
    var w := "yeah";
    assert !IsSpace(w[0]) && !IsSpace(w[3]);
    StripUnchanged(w);
    LowerExamples();
    var l := Lower(w);
    assert l != "y" && l != "yes" && l != "是" by {
      assert |l| == 4;
    }
  }

  /** The PIDs `fix_port_conflicts` kills: for each conflict with a known process
      that is one of ours, in order, when the answer to its prompt is consent. Every
      PID comes from such a conflict, and every such conflict's PID is killed. */
  function KillPlan(conflicts: seq<Conflict>, answer: int -> string): (pids: seq<int>)
    ensures |pids| <= |conflicts|
    ensures forall pid :: pid in pids ==> exists c :: (c in conflicts && c.info.Some? && c.info.value.pid == pid
      && IsOurService(c.info.value.command) && KillConsent(answer(c.port)))
    ensures forall c :: (c in conflicts && c.info.Some? && IsOurService(c.info.value.command)
      && KillConsent(answer(c.port))) ==> c.info.value.pid in pids
  {
    if conflicts == [] then []
    else
      var c := conflicts[0];
      var rest := KillPlan(conflicts[1..], answer);
      assert forall x :: x in conflicts[1..] ==> x in conflicts;
      assert forall x :: x in conflicts ==> x == c || x in conflicts[1..];
      if c.info.Some? && IsOurService(c.info.value.command) && KillConsent(answer(c.port))
      then [c.info.value.pid] + rest
      else rest
  }

  /** A process that is not one of ours is never killed, whatever the answer. */
  lemma KillPlanSparesOthers(conflicts: seq<Conflict>, answer: int -> string, info: ProcessInfo)
    requires forall c :: c in conflicts && c.info.Some? && c.info.value.pid == info.pid ==> !IsOurService(c.info.value.command)
    ensures info.pid !in KillPlan(conflicts, answer)
  {
  }
}

/** The installer script for the speech-recognition SDKs: which pip packages each
    menu choice installs, how the install results are counted, and the Python
    version gate. Every pip run is an oracle: `exitCode(name)` is the exit status
    of `pip install name`, and `pip install` raises `CalledProcessError` exactly
    when that status is not 0. */
module InstallProviders {
  import opened Text

  /** A pip package and the description printed next to it. */
  datatype Package = Package(name: string, description: string)

  /** The five basic dependencies of the desktop tool. */
  const BasicPackages: seq<Package> := [
    Package("pyaudio", "音频处理库"),
    Package("pynput", "全局快捷键库"),
    Package("requests", "HTTP 请求库"),
    Package("python-dotenv", "环境变量管理"),
    Package("keyboard", "键盘监听库")
  ]

  const LocalWhisperPackage: Package := Package("openai-whisper", "本地 Whisper")
  const OpenAIPackage: Package := Package("openai>=1.3.0", "OpenAI API")
  const TencentPackage: Package := Package("tencentcloud-sdk-python", "腾讯云 SDK")
  const AliyunPackage: Package := Package("alibabacloud_nls_meta20190103", "阿里云语音识别 SDK")
  const BaiduPackage: Package := Package("baidu-aip", "百度云 SDK")

  /** The SDK menu: one provider per choice `1` to `5`, all of them for `6`. */
  const ProviderTable: map<string, seq<Package>> := map[
    "1" := [LocalWhisperPackage],
    "2" := [OpenAIPackage],
    "3" := [TencentPackage],
    "4" := [AliyunPackage],
    "5" := [BaiduPackage],
    "6" := [LocalWhisperPackage, OpenAIPackage, TencentPackage, AliyunPackage, BaiduPackage]
  ]

  /** `install_package`: pip ran without raising. */
  predicate Installed(p: Package, exitCode: string -> int) {
    exitCode(p.name) == 0
  }

  /** How many of `pkgs` install, counted as the script's loops count them. */
  function Successes(pkgs: seq<Package>, exitCode: string -> int): (n: nat)
    ensures n <= |pkgs|
  {
    if pkgs == [] then 0
    else Successes(pkgs[..|pkgs| - 1], exitCode) + (if Installed(pkgs[|pkgs| - 1], exitCode) then 1 else 0)
  }

  /** The count reaches the number of packages iff every package installs, and is
      positive iff some package installs. */
  lemma {:induction false} SuccessesSpec(pkgs: seq<Package>, exitCode: string -> int)
    ensures Successes(pkgs, exitCode) == |pkgs| <==> forall i :: 0 <= i < |pkgs| ==> Installed(pkgs[i], exitCode)
    ensures Successes(pkgs, exitCode) > 0 <==> exists i :: 0 <= i < |pkgs| && Installed(pkgs[i], exitCode)
  {
    if pkgs != [] {
      var init := pkgs[..|pkgs| - 1];
      SuccessesSpec(init, exitCode);
      assert forall i :: 0 <= i < |init| ==> init[i] == pkgs[i];
      if Installed(pkgs[|pkgs| - 1], exitCode) {
        assert Successes(pkgs, exitCode) > 0;
      }
    }
  }

  /** The loop shared by `install_basic_requirements` and `install_speech_providers`:
      pip is run once per package, in order, and the successes are counted. */
  method InstallEach(pkgs: seq<Package>, exitCode: string -> int) returns (count: nat, ran: seq<string>)
    ensures count == Successes(pkgs, exitCode)
    ensures |ran| == |pkgs| && forall i :: 0 <= i < |pkgs| ==> ran[i] == pkgs[i].name
  {
    count := 0;
    ran := [];
    for i := 0 to |pkgs|
      invariant count == Successes(pkgs[..i], exitCode)
      invariant |ran| == i && forall k :: 0 <= k < i ==> ran[k] == pkgs[k].name
    {
      assert pkgs[..i + 1][..i] == pkgs[..i];
      ran := ran + [pkgs[i].name];
      if exitCode(pkgs[i].name) == 0 {
        count := count + 1;
      }
    }
    assert pkgs[..|pkgs|] == pkgs;
  }

  /** `install_basic_requirements`: succeeds iff all five basic packages install;
      pip is tried for every one of them even after a failure. */
  method InstallBasicRequirements(exitCode: string -> int) returns (ok: bool, ran: seq<string>)
    ensures ok <==> forall i :: 0 <= i < |BasicPackages| ==> Installed(BasicPackages[i], exitCode)
    ensures ran == ["pyaudio", "pynput", "requests", "python-dotenv", "keyboard"]
  {
    var count;
    count, ran := InstallEach(BasicPackages, exitCode);
    SuccessesSpec(BasicPackages, exitCode);
    ok := count == |BasicPackages|;
  }

  /** The packages a (stripped) menu answer selects: the table entry, or the local
      Whisper entry for anything not in the table, the empty answer included. */
  function SelectedPackages(choice: string): (pkgs: seq<Package>)
    ensures choice in ProviderTable ==> pkgs == ProviderTable[choice]
    ensures choice !in ProviderTable ==> pkgs == [LocalWhisperPackage]
  {
    if choice in ProviderTable then ProviderTable[choice] else ProviderTable["1"]
  }

  /** Choice `6` selects the five provider SDKs, each once, and the single choices
      select exactly one of them. */
  lemma SelectionCoversProviders()
    ensures SelectedPackages("6") == [SelectedPackages("1")[0], SelectedPackages("2")[0],
      SelectedPackages("3")[0], SelectedPackages("4")[0], SelectedPackages("5")[0]]
    ensures forall c :: c in ProviderTable && c != "6" ==> |SelectedPackages(c)| == 1
    ensures SelectedPackages("") == SelectedPackages("1")
  {
  }

  /** `install_speech_providers` for the typed `answer`: `0` skips and succeeds
      without running pip; otherwise every selected package is tried and the step
      succeeds iff at least one installs. */
  method InstallSpeechProviders(answer: string, exitCode: string -> int) returns (ok: bool, ran: seq<string>)
    ensures Strip(answer) == "0" ==> ok && ran == []
    ensures Strip(answer) != "0" ==>
      var pkgs := SelectedPackages(Strip(answer));
      (ok <==> exists i :: 0 <= i < |pkgs| && Installed(pkgs[i], exitCode))
      && |ran| == |pkgs| && forall i :: 0 <= i < |pkgs| ==> ran[i] == pkgs[i].name
  {
    var choice := Strip(answer);
    if choice == "0" {
      return true, [];
    }
    var pkgs := SelectedPackages(choice);
    var count;
    count, ran := InstallEach(pkgs, exitCode);
    SuccessesSpec(pkgs, exitCode);
    ok := count > 0;
    assert pkgs == SelectedPackages(Strip(answer));
  }

  /** `sys.version_info`, as far as it is compared. */
  datatype Version = Version(major: int, minor: int, micro: int)

  /** Python's `<` on tuples of integers: the first differing position decides, and
      when one tuple is a prefix of the other the shorter one is the smaller. */
  predicate TupleLess(a: seq<int>, b: seq<int>) {
    if a == [] then b != []
    else if b == [] then false
    else if a[0] != b[0] then a[0] < b[0]
    else TupleLess(a[1..], b[1..])
  }

  function VersionTuple(v: Version): seq<int> {
    [v.major, v.minor, v.micro]
  }

  const MinimumVersion: seq<int> := [3, 8]

  /** `sys.version_info < (3, 8)` holds exactly for the versions before 3.8: the
      micro number never matters, and 3.8.0 is not below (3, 8). */
  lemma BelowMinimum(v: Version)
    ensures TupleLess(VersionTuple(v), MinimumVersion) <==> v.major < 3 || (v.major == 3 && v.minor < 8)
  {
    var t := VersionTuple(v);
    assert t[1..] == [v.minor, v.micro] && t[1..][1..] == [v.micro];
    assert MinimumVersion[1..] == [8] && MinimumVersion[1..][1..] == [];
    assert !TupleLess([v.micro], []);
    assert TupleLess([v.minor, v.micro], [8]) <==> v.minor < 8;
    assert TupleLess(t, MinimumVersion) <==> v.major < 3 || (v.major == 3 && TupleLess(t[1..], MinimumVersion[1..]));
  }

  /** `check_system_requirements`: the version gate first, then whether
      `pip --version` runs. */
  function CheckSystemRequirements(v: Version, pipExitCode: int): (ok: bool)
    ensures ok <==> (v.major > 3 || (v.major == 3 && v.minor >= 8)) && pipExitCode == 0
  {
    BelowMinimum(v);
    if TupleLess(VersionTuple(v), MinimumVersion) then false
    else pipExitCode == 0
  }

  /** How `main` ends: exit status 1 when the system check or the basic packages
      fail, 0 otherwise; a failed SDK step is only a warning. */
  method Install(v: Version, pipExitCode: int, answer: string, exitCode: string -> int)
    returns (status: int, ran: seq<string>)
    ensures status == 1 <==> (!CheckSystemRequirements(v, pipExitCode)
      || exists i :: 0 <= i < |BasicPackages| && !Installed(BasicPackages[i], exitCode))
    ensures status == 0 || status == 1
    ensures !CheckSystemRequirements(v, pipExitCode) ==> ran == []
    ensures CheckSystemRequirements(v, pipExitCode) ==> (|ran| >= |BasicPackages|
      && ran[..|BasicPackages|] == ["pyaudio", "pynput", "requests", "python-dotenv", "keyboard"])
  {
    if !CheckSystemRequirements(v, pipExitCode) {
      return 1, [];
    }
    var basicOk, basicRan := InstallBasicRequirements(exitCode);
    if !basicOk {
      return 1, basicRan;
    }
    var sdkOk, sdkRan := InstallSpeechProviders(answer, exitCode);
    status := 0;
    ran := basicRan + sdkRan;
    assert ran[..|BasicPackages|] == basicRan;
  }
}

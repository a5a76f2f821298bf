/**
 `ensure_installed`: download, checksum, extraction, version check and replacement of the OpenCode binary.

 The SHA-256 function, the archive readers and what an executable prints are parameters.  Files of this
 machine may fail at any call.  `moments` is the installed binary after each such call, so that a statement
 about all of `moments` is a statement about every moment at which the process may die.
 */
module Installer {
  import opened Wrappers
  import Text

  type Bytes = seq<bv8>

  const DOWNLOAD_LIMIT: nat := 100 * 1024 * 1024
  const CHUNK: nat := 1024 * 1024

  datatype Format = Zip | TarGz

  datatype Platform = Platform(system: string, machine: string)

  datatype Artifact = Artifact(format: Format, sha256: string)

  datatype MemberKind = RegularFile | Directory | SymbolicLink | HardLink | Special

  datatype Member = Member(name: string, kind: MemberKind, content: Bytes)

  datatype Report = CannotRun | Ran(code: int, stdout: string)

  // ----- the allowlist -----

  const RELEASES: map<string, map<Platform, Artifact>> := map[
    "1.18.14" := map[
      Platform("Linux", "x86_64") :=
        Artifact(TarGz, "f23980ba2aebfbfa53948e55e213d3f2a53740fd7326553828e89ad27e970572"),
      Platform("Linux", "aarch64") :=
        Artifact(TarGz, "27ede7aa2080002459d8c970a40016bbef49cd13bb467302777da67467f1602d"),
      Platform("Darwin", "x86_64") :=
        Artifact(Zip, "78b2e99a9094ce7a4fb38416990d2b9b23e5f99a9992a37b04fb861f24c48925"),
      Platform("Darwin", "arm64") :=
        Artifact(Zip, "ad8125bb649086eb9210a87bbd27ac453a526e2432aebd4d3c9853e2d42e3291")]]

  function FindArtifact(version: string, platform: Platform): Option<Artifact> {
    if version in RELEASES && platform in RELEASES[version] then Some(RELEASES[version][platform]) else None
  }

  // ----- paths inside an archive -----

  /** The parts of a `PurePosixPath` after its root: empty parts and single dots are dropped. */
  function Parts(path: string, part: string): seq<string> {
    if path == "" then Part(part)
    else if path[0] == '/' then Part(part) + Parts(path[1..], "")
    else Parts(path[1..], part + [path[0]])
  }

  function Part(part: string): seq<string> {
    if part == "" || part == "." then [] else [part]
  }

  function Slashes(name: string): string {
    if name == "" then "" else (if name[0] == '\\' then "/" else [name[0]]) + Slashes(name[1..])
  }

  predicate SafePath(name: string) {
    var path := Slashes(name);
    (path == "" || path[0] != '/') && ".." !in Parts(path, "")
  }

  function BaseName(name: string): string {
    var parts := Parts(name, "");
    if parts == [] then "" else parts[|parts| - 1]
  }

  // ----- what these say of the characters of a name -----

  predicate NoSlash(part: string) {
    '/' !in part
  }

  /** The part that is left between two slashes or ends, unless it is empty or a dot. */
  lemma PartOfOne(part: string)
    requires NoSlash(part)
    ensures Parts(part, "") == if part == "" || part == "." then [] else [part]
  {
    PartGrows(part, "", "");
    assert "" + part == part && part + "" == part;
  }

  lemma {:induction false} PartGrows(more: string, part: string, rest: string)
    requires NoSlash(more)
    ensures Parts(more + rest, part) == Parts(rest, part + more)
  {
    if more == "" {
      assert more + rest == rest && part + more == part;
    } else {
      assert more[0] in more && forall c <- more[1..] :: c in more;
      assert (more + rest)[0] == more[0] && (more + rest)[1..] == more[1..] + rest;
      PartGrows(more[1..], part + [more[0]], rest);
      assert part + [more[0]] + more[1..] == part + more;
    }
  }

  /** A slash separates the parts before it from those after it. */
  lemma {:induction false} PartsOfTwo(a: string, part: string, b: string)
    ensures Parts(a + "/" + b, part) == Parts(a, part) + Parts(b, "")
  {
    var path := a + "/" + b;
    if a == "" {
      assert path[0] == '/' && path[1..] == b;
    } else {
      assert path[0] == a[0] && path[1..] == a[1..] + "/" + b;
      PartsOfTwo(a[1..], if a[0] == '/' then "" else part + [a[0]], b);
      if a[0] == '/' {
        assert Part(part) + (Parts(a[1..], "") + Parts(b, "")) == Part(part) + Parts(a[1..], "") + Parts(b, "");
      }
    }
  }

  /** From `i` on, between slashes or ends, `path` reads `part`. */
  predicate HasPartAt(path: string, part: string, i: nat) {
    var j := i + |part|;
    && j <= |path| && path[i..j] == part
    && (i == 0 || path[i - 1] == '/') && (j == |path| || path[j] == '/')
  }

  /** A part of what follows a slash is a part of the whole. */
  lemma PartAfterSlash(path: string, k: nat, part: string, i: nat)
    requires k < |path| && path[k] == '/' && HasPartAt(path[k + 1..], part, i)
    ensures HasPartAt(path, part, k + 1 + i)
    ensures path[k + 1 + i + |part|..] == path[k + 1..][i + |part|..]
  {
    var rest, at := path[k + 1..], k + 1 + i;
    assert path[at..at + |part|] == rest[i..i + |part|];
    assert i > 0 ==> path[at - 1] == rest[i - 1];
    assert i + |part| < |rest| ==> path[at + |part|] == rest[i + |part|];
  }

  lemma {:induction false} PartsHave(path: string, part: string) returns (i: nat)
    requires part in Parts(path, "")
    ensures NoSlash(part) && HasPartAt(path, part, i)
  {
    var k := Text.IndexOf(path, '/');
    var first := path[..k];
    assert NoSlash(first);
    PartOfOne(first);
    if k == |path| {
      assert first == path;
      i := 0;
    } else {
      var rest := path[k + 1..];
      assert path == first + "/" + rest;
      PartsOfTwo(first, "", rest);
      if part == first {
        i := 0;
      } else {
        i := PartsHave(rest, part);
        PartAfterSlash(path, k, part, i);
        i := k + 1 + i;
      }
    }
  }

  lemma PartIsThere(path: string, part: string, i: nat)
    requires NoSlash(part) && part != "" && part != "." && HasPartAt(path, part, i)
    ensures part in Parts(path, "")
  {
    var j := i + |part|;
    PartOfOne(part);
    assert path == path[..i] + path[i..j] + path[j..];
    if j < |path| {
      assert path[i..] == part + "/" + path[j + 1..];
      PartsOfTwo(part, "", path[j + 1..]);
    } else {
      assert path[i..] == part;
    }
    if i > 0 {
      assert path == path[..i - 1] + "/" + path[i..];
      PartsOfTwo(path[..i - 1], "", path[i..]);
    } else {
      assert path[i..] == path;
    }
  }

  lemma {:induction false} SlashesAt(name: string, i: nat)
    requires i < |name|
    ensures |Slashes(name)| == |name| && Slashes(name)[i] == if name[i] == '\\' then '/' else name[i]
  {
    if i > 0 {
      SlashesAt(name[1..], i - 1);
    } else {
      SlashesLength(name);
    }
  }

  lemma {:induction false} SlashesLength(name: string)
    ensures |Slashes(name)| == |name|
  {
    if name != "" {
      SlashesLength(name[1..]);
    }
  }

  predicate IsSlash(c: char) {
    c == '/' || c == '\\'
  }

  /** Two dots between slashes of either kind, or ends. */
  predicate ClimbsAt(name: string, i: nat) {
    && i + 2 <= |name| && name[i] == '.' && name[i + 1] == '.'
    && (i == 0 || IsSlash(name[i - 1])) && (i + 2 == |name| || IsSlash(name[i + 2]))
  }

  /** A name is safe exactly if it does not begin with a slash and no part of it is two dots. */
  lemma SafePathIff(name: string)
    ensures SafePath(name) <==> !(name != "" && IsSlash(name[0])) && forall i: nat :: !ClimbsAt(name, i)
  {
    hide Slashes, Parts;
    var path := Slashes(name);
    SlashesLength(name);
    forall i | 0 <= i < |name|
      ensures path[i] == if name[i] == '\\' then '/' else name[i]
    {
      SlashesAt(name, i);
    }
    if ".." in Parts(path, "") {
      var i := PartsHave(path, "..");
      assert path[i..i + 2][0] == '.' && path[i..i + 2][1] == '.';
      assert ClimbsAt(name, i);
    }
    forall i: nat | ClimbsAt(name, i)
      ensures ".." in Parts(path, "")
    {
      assert path[i..i + 2] == "..";
      PartIsThere(path, "..", i);
    }
  }

  /** `part` is followed by nothing but slashes and single dots. */
  predicate EndsIn(name: string, part: string, i: nat) {
    HasPartAt(name, part, i) && Parts(name[i + |part|..], "") == []
  }

  /** The base name is the last part that is neither empty nor a dot. */
  lemma BaseNameIff(name: string, part: string) returns (i: nat)
    requires NoSlash(part) && part != "" && part != "."
    ensures BaseName(name) == part ==> EndsIn(name, part, i)
    ensures forall j: nat :: EndsIn(name, part, j) ==> BaseName(name) == part
  {
    i := 0;
    if BaseName(name) == part {
      i := LastPartAt(name);
    }
    forall j: nat | EndsIn(name, part, j)
      ensures BaseName(name) == part
    {
      BaseNameAt(name, part, j);
    }
  }

  lemma OnlyPart(part: string, rest: string)
    requires NoSlash(part) && part != "" && part != "." && Parts(rest, "") == [] && (rest == "" || rest[0] == '/')
    ensures Parts(part + rest, "") == [part]
  {
    PartGrows(part, "", rest);
    assert "" + part == part;
    if rest != "" {
      assert Parts(rest, "") == [] + Parts(rest[1..], "");
    }
  }

  lemma BaseNameAt(name: string, part: string, i: nat)
    requires NoSlash(part) && part != "" && part != "." && EndsIn(name, part, i)
    ensures BaseName(name) == part
  {
    var j := i + |part|;
    var tail := name[i..];
    assert tail == part + name[j..];
    OnlyPart(part, name[j..]);
    if i > 0 {
      assert name == name[..i - 1] + "/" + tail;
      PartsOfTwo(name[..i - 1], "", tail);
    } else {
      assert name == tail;
    }
  }

  lemma BaseNameAfter(first: string, rest: string)
    requires NoSlash(first)
    ensures Parts(rest, "") != [] ==>
              Parts(first + "/" + rest, "") != [] && BaseName(first + "/" + rest) == BaseName(rest)
    ensures Parts(rest, "") == [] ==> Parts("/" + rest, "") == []
    ensures Parts(rest, "") == [] && Parts(first + "/" + rest, "") != [] ==> BaseName(first + "/" + rest) == first
  {
    PartOfOne(first);
    PartsOfTwo(first, "", rest);
    PartsOfTwo("", "", rest);
    assert "" + "/" + rest == "/" + rest;
  }

  lemma EndsInFirst(name: string, k: nat)
    requires k <= |name| && (k == |name| || name[k] == '/') && Parts(name[k..], "") == []
    ensures EndsIn(name, name[..k], 0)
  {
    assert name[0..k] == name[..k];
  }

  lemma EndsInLater(name: string, k: nat, part: string, i: nat)
    requires k < |name| && name[k] == '/' && EndsIn(name[k + 1..], part, i)
    ensures EndsIn(name, part, k + 1 + i)
  {
    PartAfterSlash(name, k, part, i);
  }

  lemma {:induction false} LastPartAt(name: string) returns (i: nat)
    requires Parts(name, "") != []
    ensures EndsIn(name, BaseName(name), i)
  {
    hide EndsIn, HasPartAt;
    var k := Text.IndexOf(name, '/');
    var first := name[..k];
    assert NoSlash(first);
    i := 0;
    if k == |name| {
      assert first == name && name[k..] == "";
      PartOfOne(first);
      EndsInFirst(name, k);
    } else {
      var rest := name[k + 1..];
      assert name == first + "/" + rest && name[k..] == "/" + rest;
      BaseNameAfter(first, rest);
      if Parts(rest, "") == [] {
        EndsInFirst(name, k);
      } else {
        i := LastPartAt(rest);
        EndsInLater(name, k, BaseName(rest), i);
        i := k + 1 + i;
      }
    }
  }

  /** Where following `parts` from `directory` leads. */
  function Walk(directory: seq<string>, parts: seq<string>): seq<string> {
    if parts == [] then directory
    else
      var before, last := Walk(directory, parts[..|parts| - 1]), parts[|parts| - 1];
      if last != ".." then before + [last] else if before == [] then [] else before[..|before| - 1]
  }

  /** A safe path stays inside the directory at every part, with slashes of either kind. */
  lemma {:induction false} SafePathStaysInside(directory: seq<string>, name: string, n: nat)
    requires SafePath(name) && n <= |Parts(Slashes(name), "")|
    ensures directory <= Walk(directory, Parts(Slashes(name), "")[..n])
  {
    var parts := Parts(Slashes(name), "");
    if n > 0 {
      SafePathStaysInside(directory, name, n - 1);
      assert parts[..n][..n - 1] == parts[..n - 1] && parts[n - 1] in parts;
    }
  }

  // ----- the executable in an archive -----

  predicate Unsafe(format: Format, m: Member) {
    !SafePath(m.name) || (format.TarGz? && (m.kind.SymbolicLink? || m.kind.HardLink?))
  }

  predicate Candidate(format: Format, m: Member) {
    BaseName(m.name) == "opencode" && (if format.Zip? then !m.kind.Directory? else m.kind.RegularFile?)
  }

  /** `m` is the only candidate, and no member is unsafe. */
  predicate SingleExecutable(format: Format, members: seq<Member>, m: Member) {
    && (forall x <- members :: !Unsafe(format, x))
    && exists i ::
         && 0 <= i < |members| && members[i] == m && Candidate(format, m)
         && forall j :: 0 <= j < |members| && j != i ==> !Candidate(format, members[j])
  }

  /** No name climbs, there is no link in a tar file, and `opencode` is the last part of exactly one file's name. */
  lemma SingleExecutableIff(format: Format, members: seq<Member>, m: Member)
    ensures SingleExecutable(format, members, m) <==>
            && (forall x <- members ::
                  && !(x.name != "" && IsSlash(x.name[0])) && (forall i: nat :: !ClimbsAt(x.name, i))
                  && (format == TarGz ==> x.kind != SymbolicLink && x.kind != HardLink))
            && exists k :: 0 <= k < |members| && members[k] == m && OnlyOpenCode(format, members, k)
  {
    forall x <- members
      ensures SafePath(x.name) <==> !(x.name != "" && IsSlash(x.name[0])) && forall i: nat :: !ClimbsAt(x.name, i)
    {
      SafePathIff(x.name);
    }
    forall k: nat | k < |members|
      ensures Candidate(format, members[k]) <==> IsOpenCode(format, members[k])
    {
      var i := BaseNameIff(members[k].name, "opencode");
    }
    if SingleExecutable(format, members, m) {
      var i :| && 0 <= i < |members| && members[i] == m && Candidate(format, m)
               && forall j :: 0 <= j < |members| && j != i ==> !Candidate(format, members[j]);
      assert OnlyOpenCode(format, members, i);
    }
  }

  ghost predicate IsOpenCode(format: Format, m: Member) {
    && (exists i: nat :: EndsIn(m.name, "opencode", i))
    && (m.kind == RegularFile || (format == Zip && m.kind != Directory))
  }

  ghost predicate OnlyOpenCode(format: Format, members: seq<Member>, k: nat) {
    && k < |members| && IsOpenCode(format, members[k])
    && forall j :: 0 <= j < |members| && j != k ==> !IsOpenCode(format, members[j])
  }

  /** `_extract_executable` without the copying. */
  method FindExecutable(format: Format, members: seq<Member>) returns (found: Option<Member>)
    ensures found.Some? ==> SingleExecutable(format, members, found.value)
    ensures found.None? ==> forall m :: !SingleExecutable(format, members, m)
  {
    if exists x <- members :: Unsafe(format, x) {
      return None;
    }
    var candidates: seq<nat> := [];
    for i := 0 to |members|
      invariant forall k :: 0 <= k < |candidates| ==> candidates[k] < i && Candidate(format, members[candidates[k]])
      invariant forall k :: 0 <= k < i && Candidate(format, members[k]) ==> k in candidates
      invariant forall k, l :: 0 <= k < l < |candidates| ==> candidates[k] < candidates[l]
    {
      if Candidate(format, members[i]) {
        candidates := candidates + [i];
      }
    }
    if |candidates| == 1 {
      return Some(members[candidates[0]]);
    }
    if |candidates| > 1 {
      var k, l := candidates[0], candidates[1];
      assert Candidate(format, members[k]) && Candidate(format, members[l]) && k < l;
    }
    return None;
  }

  /** `_copy_limited`: all of the source, or an error above the limit, when it does not fit. */
  method CopyLimited(source: Bytes) returns (destination: Bytes, fits: bool)
    ensures fits <==> |source| <= 104857600
    ensures fits ==> destination == source
    ensures destination <= source && |destination| <= 104857600
  {
    destination := [];
    var total := 0;
    while total < |source|
      invariant total == |destination| <= DOWNLOAD_LIMIT && destination <= source
      decreases |source| - total
    {
      var n: int := *;
      if n < 1 || n > CHUNK || n > |source| - total {
        n := 1;
      }
      var chunk := source[total..total + n];
      total := total + |chunk|;
      if total > DOWNLOAD_LIMIT {
        return destination, false;
      }
      destination := destination + chunk;
    }
    fits := true;
  }

  // ----- the download -----

  datatype Length = NoLength | Length(n: int) | NoNumber

  /** What the server sends: the connection may break after some of the chunks. */
  datatype Response = Response(ok: bool, length: Length, chunks: seq<Bytes>, breaksAfter: Option<nat>)

  function Flatten(chunks: seq<Bytes>): Bytes {
    if chunks == [] then [] else Flatten(chunks[..|chunks| - 1]) + chunks[|chunks| - 1]
  }

  lemma {:induction false} FlattenGrows(chunks: seq<Bytes>, n: nat)
    requires n <= |chunks|
    ensures Flatten(chunks[..n]) <= Flatten(chunks)
  {
    if n < |chunks| {
      var m := |chunks| - 1;
      assert chunks[..m][..n] == chunks[..n];
      FlattenGrows(chunks[..m], n);
    } else {
      assert chunks[..n] == chunks;
    }
  }

  /** All of it arrives, it is no longer than allowed, and as long as announced. */
  predicate Complete(response: Response) {
    && response.ok
    && !response.length.NoNumber?
    && (response.breaksAfter.Some? ==> response.breaksAfter.value >= |response.chunks|)
    && |Flatten(response.chunks)| <= 104857600
    && (response.length.Length? ==> |Flatten(response.chunks)| == response.length.n)
  }

  datatype Problem =
    | VersionNotConfigured
    | PlatformNotSupported
    | DownloadFailed
    | ChecksumMismatch
    | BadArchive
    | UnexpectedVersion
    | CannotExecute
    | LocalFailure

  datatype Outcome = Current | Installed | Raised(problem: Problem)

  class Installation {
    var binary: Option<Bytes>
    var archive: Option<Bytes>
    var staged: Option<Bytes>
    /** How many calls on this machine's files have failed. */
    ghost var faults: nat
    ghost var moments: seq<Option<Bytes>>

    const sha256: Bytes -> string
    const members: (Format, Bytes) -> Option<seq<Member>>
    const run: Bytes -> Report

    constructor (binary: Option<Bytes>, sha256: Bytes -> string,
                 members: (Format, Bytes) -> Option<seq<Member>>, run: Bytes -> Report)
      ensures this.binary == binary && archive.None? && staged.None?
      ensures this.sha256 == sha256 && this.members == members && this.run == run
    {
      this.binary, archive, staged := binary, None, None;
      faults, moments := 0, [];
      this.sha256, this.members, this.run := sha256, members, run;
    }

    /** `content` is the one executable of an archive with the allowlisted digest, and it says it is `version`. */
    ghost predicate Approved(version: string, platform: Platform, bytes: Bytes, content: Bytes) {
      var artifact := FindArtifact(version, platform);
      && artifact.Some?
      && sha256(bytes) == artifact.value.sha256
      && Contains(artifact.value.format, bytes, content)
      && run(content).Ran? && run(content).code == 0 && Text.Strip(run(content).stdout) == version
    }

    /** The installed binary already prints the wanted version; its exit status does not matter. */
    predicate IsCurrent(content: Option<Bytes>, version: string) {
      content.Some? && run(content.value).Ran? && Text.Strip(run(content.value).stdout) == version
    }

    /** The binary has been `b` at every moment after `earlier`. */
    ghost predicate Since(earlier: seq<Option<Bytes>>, b: Option<Bytes>)
      reads this
    {
      earlier <= moments && forall k :: |earlier| <= k < |moments| ==> moments[k] == b
    }

    /** The same, or from some moment on an approved one from this download. */
    ghost predicate Until(earlier: seq<Option<Bytes>>, b: Option<Bytes>, version: string, platform: Platform,
                          response: Response)
      reads this
    {
      earlier <= moments
      && forall k :: |earlier| <= k < |moments| ==> moments[k] == b || From(moments[k], version, platform, response)
    }

    ghost predicate From(b: Option<Bytes>, version: string, platform: Platform, response: Response) {
      b.Some? && Complete(response) && Approved(version, platform, Flatten(response.chunks), b.value)
    }

    /** The download holds an approved binary. */
    ghost predicate Holds(version: string, platform: Platform, response: Response) {
      Complete(response) && exists b :: Approved(version, platform, Flatten(response.chunks), b)
    }

    /** The archive has a single executable of an allowed size, and it is `content`. */
    ghost predicate Contains(format: Format, bytes: Bytes, content: Bytes) {
      && members(format, bytes).Some? && |content| <= 104857600
      && exists m :: SingleExecutable(format, members(format, bytes).value, m) && m.content == content
    }

    /** What a call that finds another binary, or none, ends with if nothing on this machine fails. */
    ghost predicate EndsWith(outcome: Outcome, version: string, platform: Platform, response: Response) {
      var artifact, bytes := FindArtifact(version, platform), Flatten(response.chunks);
      if version !in RELEASES then outcome == Raised(VersionNotConfigured)
      else if artifact.None? then outcome == Raised(PlatformNotSupported)
      else if !Complete(response) then outcome == Raised(DownloadFailed)
      else if sha256(bytes) != artifact.value.sha256 then outcome == Raised(ChecksumMismatch)
      else if forall content :: !Contains(artifact.value.format, bytes, content) then outcome == Raised(BadArchive)
      else
        exists content ::
          && Contains(artifact.value.format, bytes, content)
          && outcome ==
             if run(content).CannotRun? then Raised(CannotExecute)
             else if run(content).code != 0 || Text.Strip(run(content).stdout) != version
             then Raised(UnexpectedVersion)
             else Installed
    }

    /** Whether a call on this machine's files fails. */
    method Fails() returns (fails: bool)
      modifies `faults, `moments
      ensures faults == old(faults) + if fails then 1 else 0
      ensures moments == old(moments) + [binary]
    {
      fails := *;
      moments := moments + [binary];
      faults := faults + if fails then 1 else 0;
    }

    /** Into the temporary archive; the checks come in the order of the source. */
    method Download(response: Response) returns (problem: Option<Problem>)
      modifies `archive, `faults, `moments
      ensures Since(old(moments), binary)
      ensures problem.None? ==> Complete(response) && archive == Some(Flatten(response.chunks))
      ensures problem == Some(DownloadFailed) ==> !Complete(response)
      ensures problem.Some? ==> problem == Some(DownloadFailed) || problem == Some(LocalFailure)
      ensures problem == Some(LocalFailure) <==> faults > old(faults)
      ensures faults >= old(faults)
    {
      archive := Some([]);
      if !response.ok || response.length.NoNumber? {
        return Some(DownloadFailed);
      }
      if response.length.Length? && response.length.n > DOWNLOAD_LIMIT {
        return Some(DownloadFailed);
      }
      var total, written := 0, [];
      for i := 0 to |response.chunks|
        invariant written == Flatten(response.chunks[..i]) && total == |written| <= DOWNLOAD_LIMIT
        invariant response.breaksAfter.Some? ==> i <= response.breaksAfter.value
        invariant archive == Some(written) && faults == old(faults) && Since(old(moments), binary)
      {
        if response.breaksAfter == Some(i) {
          return Some(DownloadFailed);
        }
        var chunk := response.chunks[i];
        assert response.chunks[..i + 1][..i] == response.chunks[..i];
        FlattenGrows(response.chunks, i + 1);
        if chunk == [] {
          continue;
        }
        total := total + |chunk|;
        if total > DOWNLOAD_LIMIT {
          return Some(DownloadFailed);
        }
        var diskFails := Fails();
        if diskFails {
          return Some(LocalFailure);
        }
        written := written + chunk;
        archive := Some(written);
      }
      assert response.chunks[..|response.chunks|] == response.chunks;
      if response.length.Length? && total != response.length.n {
        return Some(DownloadFailed);
      }
      return None;
    }

    method Extract(format: Format) returns (problem: Option<Problem>)
      requires archive.Some?
      modifies `staged, `faults, `moments
      ensures Since(old(moments), binary)
      ensures problem.None? ==>
                staged.Some? && Contains(format, archive.value, staged.value)
      ensures problem == Some(BadArchive) ==> forall content :: !Contains(format, archive.value, content)
      ensures problem.Some? ==> problem == Some(BadArchive) || problem == Some(LocalFailure)
      ensures problem == Some(LocalFailure) <==> faults > old(faults)
      ensures faults >= old(faults)
    {
      staged := Some([]);
      var diskFails := Fails();
      if diskFails {
        return Some(LocalFailure);
      }
      var entries := members(format, archive.value);
      if entries.None? {
        return Some(BadArchive);
      }
      var found := FindExecutable(format, entries.value);
      if found.None? {
        return Some(BadArchive);
      }
      var content, fits := CopyLimited(found.value.content);
      staged := Some(content);
      return if fits then None else Some(BadArchive);
    }

    /** The staged file's rename over the binary. */
    method Replace() returns (fails: bool)
      requires staged.Some?
      modifies `binary, `staged, `faults, `moments
      ensures if fails then binary == old(binary) && staged == old(staged) else binary == old(staged) && staged.None?
      ensures fails <==> faults > old(faults)
      ensures faults >= old(faults)
      ensures moments == old(moments) + [old(binary), binary]
    {
      fails := Fails();
      if !fails {
        binary, staged := staged, None;
      }
      moments := moments + [binary];
    }

    /** Everything between the version lookup and the clean-up. */
    method Install(version: string, platform: Platform, artifact: Artifact, response: Response)
      returns (outcome: Outcome)
      requires FindArtifact(version, platform) == Some(artifact)
      modifies `binary, `archive, `staged, `faults, `moments
      ensures outcome.Installed? || outcome.Raised?
      ensures outcome.Raised? ==> binary == old(binary)
      ensures outcome.Installed? ==> From(binary, version, platform, response)
      ensures Until(old(moments), old(binary), version, platform, response)
      ensures outcome.Raised? && !outcome.problem.LocalFailure? ==>
                !Holds(version, platform, response)
      ensures outcome == Raised(LocalFailure) <==> faults > old(faults)
      ensures faults == old(faults) ==> EndsWith(outcome, version, platform, response)
      ensures faults >= old(faults)
    {
      var problem := Download(response);
      if problem.Some? {
        return Raised(problem.value);
      }
      if sha256(archive.value) != artifact.sha256 {
        return Raised(ChecksumMismatch);
      }
      problem := Extract(artifact.format);
      if problem.Some? {
        return Raised(problem.value);
      }
      OnlyOneExecutable(artifact.format, members(artifact.format, archive.value).value, staged.value);
      assert Contains(artifact.format, Flatten(response.chunks), staged.value);
      var report := run(staged.value);
      if report.CannotRun? {
        return Raised(CannotExecute);
      }
      if report.code != 0 || Text.Strip(report.stdout) != version {
        return Raised(UnexpectedVersion);
      }
      var fails := Replace();
      return if fails then Raised(LocalFailure) else Installed;
    }

    /**
     However the call ends, and at every moment before that, the binary is the previous one or an approved
     one.  On a normal return it is the requested version.  Without a local failure, and unless the previous
     binary is current or cannot even be run, it is replaced exactly when the download holds an approved one.
     */
    method EnsureInstalled(version: string, platform: Platform, response: Response) returns (outcome: Outcome)
      modifies `binary, `archive, `staged, `faults, `moments
      ensures binary == old(binary) || From(binary, version, platform, response)
      ensures Until(old(moments), old(binary), version, platform, response)
      ensures outcome.Current? <==> IsCurrent(old(binary), version)
      ensures outcome.Current? ==> binary == old(binary) && archive == old(archive) && staged == old(staged)
      ensures !outcome.Raised? ==> IsCurrent(binary, version)
      ensures outcome.Installed? ==> archive.None? && staged.None?
      ensures faults == old(faults) && !outcome.Current? && (old(binary).Some? ==> run(old(binary).value).Ran?) ==>
                (outcome.Installed? <==> Holds(version, platform, response))
      ensures faults == old(faults) && outcome.Raised? ==> binary == old(binary)
      ensures faults == old(faults) && !outcome.Current? ==>
                if old(binary).Some? && run(old(binary).value).CannotRun? then outcome == Raised(LocalFailure)
                else EndsWith(outcome, version, platform, response)
    {
      if binary.Some? {
        var report := run(binary.value);
        if report.CannotRun? {
          return Raised(LocalFailure);
        }
        if Text.Strip(report.stdout) == version {
          return Current;
        }
      }
      if version !in RELEASES {
        return Raised(VersionNotConfigured);
      }
      if platform !in RELEASES[version] {
        return Raised(PlatformNotSupported);
      }
      outcome := Install(version, platform, RELEASES[version][platform], response);
      var archiveStays := Fails();
      if archiveStays {
        return Raised(LocalFailure);
      }
      archive := None;
      var stagedStays := Fails();
      if stagedStays {
        return Raised(LocalFailure);
      }
      staged := None;
    }
  }

  lemma OnlyOneExecutable(format: Format, members: seq<Member>, content: Bytes)
    requires exists m :: SingleExecutable(format, members, m) && m.content == content
    ensures forall m :: SingleExecutable(format, members, m) ==> m.content == content
  {
  }
}

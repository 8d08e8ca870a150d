/** Locating the yt-dlp executable (`ensureYtDlp` and `cachedYtDlpPath`,
    server.js). The file-system checks, the `yt-dlp --version` probe and the
    download are outside the model: their answers are given as `Probes`. */
module Extractor {
  import opened JsValues

  /** The places tried, in the order the source tries them. */
  datatype Candidate = EnvPath | SystemBinary | VendoredBinary | Download

  /** What the environment answers to each probe: is `YTDLP_PATH` executable,
      the exit code of `yt-dlp --version` (`None`: spawn error), is the vendored
      binary executable, and do `mkdir` and the download both succeed. */
  datatype Probes = Probes(envExecutable: bool, systemExit: Option<int>,
                           vendoredExecutable: bool, downloadOk: bool)

  /** The command name used when yt-dlp is found on the system path. */
  const SystemCommand := "yt-dlp"

  /** The fixed probe order; the environment path is tried only when it is set. */
  function CandidateOrder(envPath: string): seq<Candidate>
  {
    (if envPath != "" then [EnvPath] else []) + [SystemBinary, VendoredBinary, Download]
  }

  /** The order written out: the environment path is a candidate iff it is set,
      and it then comes first. */
  lemma CandidateOrderShape(envPath: string)
    ensures var order := CandidateOrder(envPath);
      (envPath != "" ==> order == [EnvPath, SystemBinary, VendoredBinary, Download]) &&
      (envPath == "" ==> order == [SystemBinary, VendoredBinary, Download]) &&
      (EnvPath in order <==> envPath != "")
  {
  }

  predicate Succeeds(p: Probes, c: Candidate)
  {
    match c
    case EnvPath => p.envExecutable
    case SystemBinary => p.systemExit == Some(0)
    case VendoredBinary => p.vendoredExecutable
    case Download => p.downloadOk
  }

  /** The path cached when candidate `c` succeeds; a download lands on the vendored path. */
  function PathOf(c: Candidate, envPath: string, localPath: string): string
  {
    match c
    case EnvPath => envPath
    case SystemBinary => SystemCommand
    case VendoredBinary => localPath
    case Download => localPath
  }

  /** The path found and the candidates tried, in order. */
  datatype ProbeResult = ProbeResult(path: Option<string>, tried: seq<Candidate>)

  /** Tries `cands` left to right and stops at the first success. */
  function FirstSuccess(cands: seq<Candidate>, p: Probes, envPath: string, localPath: string): (r: ProbeResult)
    ensures r.tried <= cands
    ensures forall i :: 0 <= i < |r.tried| - 1 ==> !Succeeds(p, r.tried[i])
    ensures r.path.Some? <==> r.tried != [] && Succeeds(p, r.tried[|r.tried| - 1])
    ensures r.path.Some? ==> r.path.value == PathOf(r.tried[|r.tried| - 1], envPath, localPath)
    ensures r.path.None? ==> r.tried == cands
  {
    if cands == [] then ProbeResult(None, [])
    else if Succeeds(p, cands[0]) then ProbeResult(Some(PathOf(cands[0], envPath, localPath)), [cands[0]])
    else
      var rest := FirstSuccess(cands[1..], p, envPath, localPath);
      ProbeResult(rest.path, [cands[0]] + rest.tried)
  }

  /** A full probe with no cached path. */
  function Probe(envPath: string, localPath: string, p: Probes): ProbeResult
  {
    FirstSuccess(CandidateOrder(envPath), p, envPath, localPath)
  }

  /** What `ensureYtDlp` returns given the cache it starts from. */
  function EnsureResult(cached: Option<string>, envPath: string, localPath: string, p: Probes): (r: Option<string>)
    ensures cached.Some? ==> r == cached
    ensures r.None? ==> cached.None? && (envPath == "" || !p.envExecutable) &&
                        p.systemExit != Some(0) && !p.vendoredExecutable && !p.downloadOk
    ensures cached.None? && r.Some? ==> r == Probe(envPath, localPath, p).path
  {
    ProbeOrderFacts(envPath, localPath, p);
    if cached.Some? then cached else Probe(envPath, localPath, p).path
  }

  /** The scan over the system, vendored and download candidates, written out. */
  lemma TailScan(envPath: string, localPath: string, p: Probes)
    ensures FirstSuccess([SystemBinary, VendoredBinary, Download], p, envPath, localPath) ==
      if p.systemExit == Some(0) then ProbeResult(Some(SystemCommand), [SystemBinary])
      else if p.vendoredExecutable then ProbeResult(Some(localPath), [SystemBinary, VendoredBinary])
      else if p.downloadOk then ProbeResult(Some(localPath), [SystemBinary, VendoredBinary, Download])
      else ProbeResult(None, [SystemBinary, VendoredBinary, Download])
  {
    var c3 := [SystemBinary, VendoredBinary, Download];
    assert c3[1..] == [VendoredBinary, Download];
    assert c3[1..][1..] == [Download];
    assert c3[1..][1..][1..] == [];
  }

  /** The probe as the chain of tests `ensureYtDlp` writes: the list scan over
      the candidate order is this chain. */
  lemma {:induction false} ProbeIsChain(envPath: string, localPath: string, p: Probes)
    ensures Probe(envPath, localPath, p) ==
      var envTried := if envPath != "" then [EnvPath] else [];
      if envPath != "" && p.envExecutable then ProbeResult(Some(envPath), [EnvPath])
      else if p.systemExit == Some(0) then ProbeResult(Some(SystemCommand), envTried + [SystemBinary])
      else if p.vendoredExecutable then ProbeResult(Some(localPath), envTried + [SystemBinary, VendoredBinary])
      else if p.downloadOk then ProbeResult(Some(localPath), envTried + [SystemBinary, VendoredBinary, Download])
      else ProbeResult(None, envTried + [SystemBinary, VendoredBinary, Download])
  {
    TailScan(envPath, localPath, p);
    var order := CandidateOrder(envPath);
    if envPath != "" {
      assert order == [EnvPath, SystemBinary, VendoredBinary, Download];
      assert order[1..] == [SystemBinary, VendoredBinary, Download];
    } else {
      assert order == [SystemBinary, VendoredBinary, Download];
    }
  }

  /** A set environment path is tried first; the system binary is tried unless
      the environment path already succeeded; `None` means every candidate failed. */
  lemma ProbeOrderFacts(envPath: string, localPath: string, p: Probes)
    ensures var r := Probe(envPath, localPath, p);
      r.tried <= CandidateOrder(envPath) &&
      (r.path.Some? ==> (r.path.value == envPath && envPath != "") ||
                        r.path.value == SystemCommand || r.path.value == localPath) &&
      (r.path.None? ==> r.tried == CandidateOrder(envPath)) &&
      |r.tried| >= 1 &&
      (envPath != "" ==> r.tried[0] == EnvPath) &&
      (SystemBinary in r.tried || (envPath != "" && p.envExecutable)) &&
      (r.path.None? ==> (!p.envExecutable || envPath == "") &&
                        p.systemExit != Some(0) && !p.vendoredExecutable && !p.downloadOk)
  {
    ProbeIsChain(envPath, localPath, p);
  }

  /** The process-wide cache of the extractor path. `probed` records which
      probes ran, across all calls, so that "no probing" can be stated. */
  class Locator {
    const envPath: string
    const localPath: string
    var cached: Option<string>
    ghost var probed: seq<Candidate>

    /** A cached path is never the empty string, so "is the cache set" is `cached.Some?`. */
    ghost predicate Valid()
      reads this
    {
      localPath != "" && (cached.Some? ==> cached.value != "")
    }

    /** `ENV_YTDLP` (`""` when unset) and `LOCAL_YTDLP`; nothing cached yet. */
    constructor (envPath: string, localPath: string)
      requires localPath != ""
      ensures Valid()
      ensures this.envPath == envPath && this.localPath == localPath
      ensures cached == None && probed == []
    {
      this.envPath := envPath;
      this.localPath := localPath;
      cached := None;
      probed := [];
    }

    /** `ensureYtDlp()`: the cached path without probing, otherwise the first
        candidate that succeeds, which is then cached; on total failure `None`
        with the cache left unset. */
    method Ensure(p: Probes) returns (path: Option<string>)
      requires Valid()
      modifies this
      ensures Valid()
      ensures path == EnsureResult(old(cached), envPath, localPath, p)
      ensures old(cached).Some? ==> cached == old(cached) && probed == old(probed)
      ensures old(cached).None? ==>
                cached == path && probed == old(probed) + Probe(envPath, localPath, p).tried
    {
      ProbeIsChain(envPath, localPath, p);
      if cached.Some? {
        return cached;
      }
      if envPath != "" {
        probed := probed + [EnvPath];
        if p.envExecutable {
          cached := Some(envPath);
          return cached;
        }
      }
      probed := probed + [SystemBinary];
      if p.systemExit == Some(0) {
        cached := Some(SystemCommand);
        return cached;
      }
      probed := probed + [VendoredBinary];
      if p.vendoredExecutable {
        cached := Some(localPath);
        return cached;
      }
      probed := probed + [Download];
      if p.downloadOk {
        cached := Some(localPath);
        return cached;
      }
      return None;
    }
  }
}

/**
 * Looking up the audio session of a process (VAAudioSession in audiocore.py):
 * the sessions considered, the case-insensitive substring lookup with its
 * two fallbacks, and the title shown for a session.
 */
module Sessions {
  import opened Base
  import opened Strings
  import opened Driver

  /** A session the add-on keeps: it has a process, and that process reports a non-empty name. */
  predicate Named(s: LiveSession)
  {
    s.process.Some? && s.process.value != ""
  }

  function ProcessName(s: LiveSession): string
  {
    if s.process.Some? then s.process.value else ""
  }

  /** The sessions that have a named process, in enumeration order. */
  function NamedSessions(live: seq<LiveSession>): (r: seq<LiveSession>)
    ensures forall k :: 0 <= k < |r| ==> Named(r[k])
    ensures |r| <= |live|
  {
    if |live| == 0 then [] else if Named(live[0]) then [live[0]] + NamedSessions(live[1..]) else NamedSessions(live[1..])
  }

  /** The kept sessions are exactly the named live sessions. */
  lemma {:induction false} NamedSessionsMembers(live: seq<LiveSession>)
    ensures forall k :: 0 <= k < |NamedSessions(live)| ==> NamedSessions(live)[k] in live
    ensures forall k :: 0 <= k < |live| && Named(live[k]) ==> live[k] in NamedSessions(live)
  {
    if |live| > 0 {
      NamedSessionsMembers(live[1..]);
      assert forall k :: 1 <= k < |live| ==> live[k] == live[1..][k - 1];
      assert forall x :: x in live[1..] ==> x in live;
    }
  }

  /** `query.lower() in name.lower()` on the session's process name. */
  predicate Matches(s: LiveSession, query: string)
  {
    ContainsIgnoringCase(ProcessName(s), query)
  }

  /** The position of the first session whose process name contains `query`, ignoring case. */
  function FirstMatch(sessions: seq<LiveSession>, query: string): (r: Option<nat>)
    ensures r.None? <==> forall k :: 0 <= k < |sessions| ==> !Matches(sessions[k], query)
    ensures r.Some? ==> r.value < |sessions| && Matches(sessions[r.value], query)
    ensures r.Some? ==> forall k :: 0 <= k < r.value ==> !Matches(sessions[k], query)
  {
    if |sessions| == 0 then None
    else if Matches(sessions[0], query) then Some(0)
    else
      var rest := FirstMatch(sessions[1..], query);
      assert forall k :: 1 <= k < |sessions| ==> sessions[k] == sessions[1..][k - 1];
      if rest.None? then None else Some(rest.value + 1)
  }

  const NvdaProcess: string := "nvda.exe"

  /** Session k is the first one matching the query. */
  predicate FirstMatchAt(sessions: seq<LiveSession>, query: string, k: int)
  {
    0 <= k < |sessions| && Matches(sessions[k], query) && forall j | 0 <= j < k :: !Matches(sessions[j], query)
  }

  /** No session matches the query. */
  predicate NoMatch(sessions: seq<LiveSession>, query: string)
  {
    forall j | 0 <= j < |sessions| :: !Matches(sessions[j], query)
  }

  /** The first match is unique, so it is the index FirstMatch finds; without any match FirstMatch finds none. */
  lemma FirstMatchUnique(sessions: seq<LiveSession>, query: string)
    ensures forall k | FirstMatchAt(sessions, query, k) :: FirstMatch(sessions, query) == Some(k)
    ensures NoMatch(sessions, query) ==> FirstMatch(sessions, query).None?
  {
    forall k | FirstMatchAt(sessions, query, k) ensures FirstMatch(sessions, query) == Some(k) {
      var r := FirstMatch(sessions, query);
      assert r.Some?;
      assert !(r.value < k) && !(k < r.value);
    }
  }

  /**
   * `selectAudioSession`: the first session matching `name`, else the first
   * one matching "nvda.exe", else the first session. The last fallback is
   * evaluated whatever the outcome, so the list must not be empty.
   */
  function SelectAudioSession(sessions: seq<LiveSession>, name: string): (r: LiveSession)
    requires |sessions| > 0
    ensures r in sessions
    ensures forall k {:trigger FirstMatchAt(sessions, name, k)} | FirstMatchAt(sessions, name, k) :: r == sessions[k]
    ensures NoMatch(sessions, name) ==> forall k {:trigger FirstMatchAt(sessions, NvdaProcess, k)} | FirstMatchAt(sessions, NvdaProcess, k) :: r == sessions[k]
    ensures NoMatch(sessions, name) && NoMatch(sessions, NvdaProcess) ==> r == sessions[0]
  {
    FirstMatchUnique(sessions, name);
    FirstMatchUnique(sessions, NvdaProcess);
    match FirstMatch(sessions, name)
    case Some(k) => sessions[k]
    case None =>
      match FirstMatch(sessions, NvdaProcess)
      case Some(k) => sessions[k]
      case None => sessions[0]
  }

  /** The first session that matches the query is the one selected. */
  lemma SelectFirstMatch(sessions: seq<LiveSession>, name: string, k: nat)
    requires k < |sessions| && Matches(sessions[k], name)
    requires forall j :: 0 <= j < k ==> !Matches(sessions[j], name)
    ensures SelectAudioSession(sessions, name) == sessions[k]
  {
  }

  /** With no match, the first session of NVDA itself is selected. */
  lemma SelectNvdaFallback(sessions: seq<LiveSession>, name: string, k: nat)
    requires forall j :: 0 <= j < |sessions| ==> !Matches(sessions[j], name)
    requires k < |sessions| && Matches(sessions[k], NvdaProcess)
    requires forall j :: 0 <= j < k ==> !Matches(sessions[j], NvdaProcess)
    ensures SelectAudioSession(sessions, name) == sessions[k]
  {
  }

  /** With neither the query nor NVDA matching, the first session is selected. */
  lemma SelectFirstFallback(sessions: seq<LiveSession>, name: string)
    requires |sessions| > 0
    requires forall j :: 0 <= j < |sessions| ==> !Matches(sessions[j], name) && !Matches(sessions[j], NvdaProcess)
    ensures SelectAudioSession(sessions, name) == sessions[0]
  {
  }

  /** The display name Windows gives the system-sounds session. */
  const SystemSoundResource: string := "@%SystemRoot%\\System32\\AudioSrv.Dll,-202"

  /** `title`: the display name, with the system-sounds resource mapped to "System Sound"; the process name without ".exe" when the display name is empty. */
  function SessionTitle(displayName: string, processName: string): (r: string)
    ensures displayName == SystemSoundResource ==> r == "System Sound"
    ensures displayName != "" && displayName != SystemSoundResource ==> r == displayName
    ensures displayName == "" && !Contains(processName, ".exe") ==> r == processName
  {
    var shown := if displayName == SystemSoundResource then "System Sound" else displayName;
    if shown != "" then shown
    else
      if !Contains(processName, ".exe") then RemoveAllWithoutOccurrence(processName, ".exe"); RemoveAll(processName, ".exe")
      else RemoveAll(processName, ".exe")
  }

  /** A session without a display name whose process is `stem.exe` (no other ".exe" in `stem`) is titled `stem`. */
  lemma SessionTitleOfExecutable(stem: string)
    requires !Contains(stem, ".exe")
    ensures SessionTitle("", stem + ".exe") == stem
  {
    RemoveExeExtension(stem);
  }
}

/**
 * The persisted bookkeeping of audiocore.py: devices and processes to hide,
 * and the audio sources the add-on has muted.
 */
module Configurations {
  import opened Base

  /** The muted list as the getter reads it: the stored list, or [] when the document has no "muted" key. */
  function MutedOf(entry: Option<seq<string>>): seq<string>
  {
    if entry.Some? then entry.value else []
  }

  /** `addMuted` as intended: a non-empty name not yet listed is appended, and stored. */
  function AddMutedTo(entry: Option<seq<string>>, name: string): (r: Option<seq<string>>)
    ensures name != "" ==> name in MutedOf(r)
    ensures forall x :: x in MutedOf(r) <==> x in MutedOf(entry) || (x == name && name != "")
    ensures NoDups(MutedOf(entry)) ==> NoDups(MutedOf(r))
    ensures name == "" || name in MutedOf(entry) ==> r == entry
  {
    var s := MutedOf(entry);
    if name != "" && name !in s then
      if NoDups(s) then NoDupsSnoc(s, name); Some(s + [name]) else Some(s + [name])
    else entry
  }

  /**
   * `addMuted` as written: the name is appended to the list the getter
   * returned, then that getter's result is stored. Without a "muted" key the
   * getter returns a fresh empty list each time, so the name is dropped.
   */
  function AddMutedAsWritten(entry: Option<seq<string>>, name: string): Option<seq<string>>
  {
    var s := MutedOf(entry);
    if name != "" && name !in s then
      if entry.Some? then Some(s + [name]) else Some([])
    else entry
  }

  /** On a document without a "muted" key, the first name added is lost; the intended version keeps it. */
  lemma AddMutedAsWrittenDropsFirstName(name: string)
    requires name != ""
    ensures AddMutedAsWritten(None, name) == Some([])
    ensures name !in MutedOf(AddMutedAsWritten(None, name))
    ensures AddMutedTo(None, name) == Some([name])
  {
    assert [] + [name] == [name];
  }

  /** Once the key exists, the code as written and the intended version agree. */
  lemma AddMutedAsWrittenAgrees(entry: Option<seq<string>>, name: string)
    requires entry.Some?
    ensures AddMutedAsWritten(entry, name) == AddMutedTo(entry, name)
  {
  }

  /** `delMuted`: the first occurrence is removed and the list stored; an absent name leaves everything as it was. */
  function DelMutedFrom(entry: Option<seq<string>>, name: string): (r: Option<seq<string>>)
    ensures name !in MutedOf(entry) ==> r == entry
    ensures forall x :: x != name ==> (x in MutedOf(r) <==> x in MutedOf(entry))
    ensures NoDups(MutedOf(entry)) ==> name !in MutedOf(r) && NoDups(MutedOf(r))
  {
    var s := MutedOf(entry);
    if name in s then
      RemoveFirstMembers(s, name);
      if NoDups(s) then RemoveFirstNoDups(s, name); Some(RemoveFirst(s, name))
      else Some(RemoveFirst(s, name))
    else entry
  }

  /** Adding a name that was not listed and then deleting it restores the list. */
  lemma {:induction false} AddThenDelMuted(entry: Option<seq<string>>, name: string)
    requires name !in MutedOf(entry)
    ensures MutedOf(DelMutedFrom(AddMutedTo(entry, name), name)) == MutedOf(entry)
  {
    if name != "" {
      RemoveFirstSnoc(MutedOf(entry), name);
    }
  }

  class Configuration {
    /** Hidden devices: id to name. */
    var devices: map<string, string>
    /** Hidden processes: full process names. */
    var processes: seq<string>
    /** The stored "muted" list; None while the document has no such key. */
    var mutedEntry: Option<seq<string>>

    /** A freshly loaded document with no saved data. */
    constructor ()
      ensures devices == map[] && processes == [] && mutedEntry == None
    {
      devices := map[];
      processes := [];
      mutedEntry := None;
    }

    function Muted(): seq<string>
      reads this
    {
      MutedOf(mutedEntry)
    }

    /** The muted list holds each name at most once. */
    predicate Valid()
      reads this
    {
      NoDups(Muted())
    }

    method SetDevices(d: map<string, string>)
      modifies this
      ensures devices == d && processes == old(processes) && mutedEntry == old(mutedEntry)
    {
      devices := d;
    }

    method SetProcesses(p: seq<string>)
      modifies this
      ensures processes == p && devices == old(devices) && mutedEntry == old(mutedEntry)
    {
      processes := p;
    }

    /** `bool(set(self.devices) ^ set(d))`: only the device ids are compared, never the names. */
    function IsChangedDevices(d: map<string, string>): (r: bool)
      reads this
      ensures r <==> d.Keys != devices.Keys
    {
      (devices.Keys - d.Keys) + (d.Keys - devices.Keys) != {}
    }

    /** `bool(set(self.processes) ^ set(p))`: order and repetitions do not count. */
    function IsChangedProcesses(p: seq<string>): (r: bool)
      reads this
      ensures !r <==> forall x :: x in p <==> x in processes
    {
      var mine := set x | x in processes;
      var theirs := set x | x in p;
      assert forall x :: x in mine <==> x in processes;
      assert forall x :: x in theirs <==> x in p;
      assert (mine - theirs) + (theirs - mine) == {} <==> mine == theirs;
      (mine - theirs) + (theirs - mine) != {}
    }

    method AddMuted(name: string)
      modifies this
      ensures mutedEntry == AddMutedTo(old(mutedEntry), name)
      ensures devices == old(devices) && processes == old(processes)
    {
      if name != "" && name !in Muted() {
        mutedEntry := AddMutedTo(mutedEntry, name);
      }
    }

    method DelMuted(name: string)
      modifies this
      ensures mutedEntry == DelMutedFrom(old(mutedEntry), name)
      ensures devices == old(devices) && processes == old(processes)
    {
      if name in Muted() {
        mutedEntry := DelMutedFrom(mutedEntry, name);
      }
    }
  }
}

/** The user-agent pool (useragents/useragents.go): a list of agent strings,
    nil until a file with at least one line has been loaded. Opening and
    scanning the file and the random draw are supplied by the caller. */
module UserAgents {
  import opened Wrappers

  /** The contents of a list that may be nil (nil reads as empty). */
  function ListOf(list: Option<seq<string>>): seq<string> {
    if list.Some? then list.value else []
  }

  /** append(list, lines...): appending nothing to nil leaves nil. */
  function Appended(list: Option<seq<string>>, lines: seq<string>): Option<seq<string>> {
    if lines == [] then list else Some(ListOf(list) + lines)
  }

  /** Appending keeps the old entries first and the lines in order after
      them; the list stays nil only when it was nil and nothing was read. */
  lemma AppendedContents(list: Option<seq<string>>, lines: seq<string>)
    ensures ListOf(Appended(list, lines)) == ListOf(list) + lines
    ensures Appended(list, lines).None? <==> list.None? && lines == []
  {
  }

  /** A list that is nil or non-empty stays so. */
  lemma AppendedKeepsShape(list: Option<seq<string>>, lines: seq<string>)
    requires list.Some? ==> list.value != []
    ensures Appended(list, lines).Some? ==> Appended(list, lines).value != []
  {
  }

  class UserAgentClient {
    var agentList: Option<seq<string>>

    /** The list is nil or holds at least one agent. */
    predicate Valid()
      reads this
    {
      agentList.Some? ==> agentList.value != []
    }

    constructor()
      ensures agentList == None && Valid()
    {
      agentList := None;
    }

    /** LoadUserAgents: refuses an empty file name and an unopenable file
        without touching the list; otherwise appends every scanned line, in
        order, and returns the scanner's error. */
    method LoadUserAgents(fp: string, openErr: Option<string>, lines: seq<string>, scanErr: Option<string>)
      returns (err: Option<string>)
      requires Valid()
      modifies this
      ensures Valid()
      ensures fp == "" ==> err == Some("no filename provided") && agentList == old(agentList)
      ensures fp != "" && openErr.Some? ==> err == openErr && agentList == old(agentList)
      ensures fp != "" && openErr.None? ==> err == scanErr && agentList == Appended(old(agentList), lines)
    {
      if fp == "" {
        return Some("no filename provided");
      }
      if openErr.Some? {
        return openErr;
      }
      var i := 0;
      while i < |lines|
        invariant 0 <= i <= |lines|
        invariant agentList == Appended(old(agentList), lines[..i])
        invariant Valid()
      {
        assert lines[..i + 1] == lines[..i] + [lines[i]];
        AppendedContents(old(agentList), lines[..i]);
        assert ListOf(old(agentList)) + lines[..i + 1] == ListOf(old(agentList)) + lines[..i] + [lines[i]];
        agentList := Some(ListOf(agentList) + [lines[i]]);
        i := i + 1;
      }
      assert lines[..i] == lines;
      err := scanErr;
    }

    /** GetRandomUserAgent with `draw` standing for rand.Intn(len(list)):
        the agent at that index; an error on a nil list. */
    method GetRandomUserAgent(draw: nat) returns (agent: string, err: Option<string>)
      requires Valid()
      requires agentList.Some? ==> draw < |agentList.value|
      ensures agentList.None? ==> agent == "" && err == Some("agent list is nil")
      ensures agentList.Some? ==> err == None && agent == agentList.value[draw] && agent in agentList.value
    {
      if agentList.None? {
        return "", Some("agent list is nil");
      }
      agent := agentList.value[draw];
      err := None;
    }
  }
}

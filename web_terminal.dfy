/**
 * The Kubernetes terminal: a command line whose history grows by one
 * entry per command run. The entry is added in the loading state when the
 * command starts, and when the reply comes only that last entry is
 * settled, with the output or with the error message.
 */
module KubeTerminal {
  import opened Wrappers
  import opened Strs

  /** An entry of `history`. */
  datatype Entry = Entry(command: string, output: string, loading: bool, failed: bool)

  /** A `kubernetesAPI.executeCommand(clusterId, namespace, command)` call. */
  datatype ExecCall = ExecCall(clusterId: string, namespace: string, command: string)

  const DefaultNamespaces := ["default", "kube-system", "kube-public", "production", "monitoring"]

  /** The entry a command starts with. */
  function Started(command: string): Entry
  {
    Entry("$ " + command, "执行中...", true, false)
  }

  /** The history once the reply to the last command is in: only the last entry changes. */
  function Settled(history: seq<Entry>, reply: Result<string, string>): (r: seq<Entry>)
    ensures |r| == |history|
    ensures forall k :: 0 <= k < |history| - 1 ==> r[k] == history[k]
    ensures |r| > 0 ==>
      var last := r[|r| - 1];
      last.command == history[|history| - 1].command && !last.loading &&
      (last.failed <==> reply.Err?) &&
      last.output == (if reply.Ok? then reply.value else reply.error)
  {
    if |history| == 0 then history
    else
      var command := history[|history| - 1].command;
      var last := match reply
        case Ok(output) => Entry(command, output, false, false)
        case Err(message) => Entry(command, message, false, true);
      history[..|history| - 1] + [last]
  }

  /** Only the last entry may be loading, and only while a command runs. */
  ghost predicate Consistent(history: seq<Entry>, executing: bool)
  {
    forall k :: 0 <= k < |history| && history[k].loading ==> executing && k == |history| - 1
  }

  /**
   * A command started on a settled history and then answered adds exactly
   * one settled entry, `$ ` and the command, and keeps every earlier entry.
   */
  lemma {:induction false} RunAppends(history: seq<Entry>, command: string, reply: Result<string, string>)
    requires Consistent(history, false)
    ensures var h := Settled(history + [Started(command)], reply);
      |h| == |history| + 1 && h[..|history|] == history &&
      h[|history|].command == "$ " + command && !h[|history|].loading &&
      Consistent(h, false)
  {
    var h := Settled(history + [Started(command)], reply);
    assert h[..|history|] == history;
  }

  /** The terminal's state. */
  class Terminal {
    var command: string
    var history: seq<Entry>
    var namespace: string
    var namespaces: seq<string>
    var executing: bool

    ghost predicate Valid()
      reads this
    {
      Consistent(history, executing)
    }

    /** The terminal as first shown for the page's `namespace`. */
    constructor(namespace: string)
      ensures Valid()
      ensures command == "" && history == [] && !executing
      ensures this.namespace == namespace && namespaces == DefaultNamespaces
    {
      command := "";
      history := [];
      this.namespace := namespace;
      namespaces := DefaultNamespaces;
      executing := false;
    }

    /** `fetchNamespaces`: the cluster's namespaces, or the list kept when the request fails. */
    method LoadNamespaces(answer: Result<seq<string>, string>)
      modifies this
      ensures namespaces == (if answer.Ok? then answer.value else old(namespaces))
      ensures command == old(command) && history == old(history) && namespace == old(namespace)
      ensures executing == old(executing)
    {
      if answer.Ok? {
        namespaces := answer.value;
      }
    }

    /** The namespace selector, and a new `namespace` from the page. */
    method ChooseNamespace(ns: string)
      modifies this
      ensures namespace == ns
      ensures command == old(command) && history == old(history) && namespaces == old(namespaces)
      ensures executing == old(executing)
    {
      namespace := ns;
    }

    /** Typing in the input, which is disabled while a command runs. */
    method Type(text: string)
      modifies this
      ensures command == (if old(executing) then old(command) else text)
      ensures history == old(history) && namespace == old(namespace) && namespaces == old(namespaces)
      ensures executing == old(executing)
    {
      if !executing {
        command := text;
      }
    }

    /**
     * The first half of `executeCommand`, up to the API call: a blank
     * command or a missing cluster (`""`) change nothing; otherwise the
     * trimmed command is sent in the current namespace, and its entry is
     * added in the loading state.
     */
    method Start(clusterId: string) returns (call: Option<ExecCall>)
      modifies this
      ensures call.None? <==> Trim(old(command)) == "" || clusterId == ""
      ensures call.None? ==> history == old(history) && executing == old(executing)
      ensures call.Some? ==>
        call.value == ExecCall(clusterId, namespace, Trim(old(command))) &&
        history == old(history) + [Started(Trim(old(command)))] && executing
      ensures command == old(command) && namespace == old(namespace) && namespaces == old(namespaces)
      ensures old(Valid()) && !old(executing) ==> Valid()
    {
      var full := Trim(command);
      if full == "" || clusterId == "" {
        return None;
      }
      executing := true;
      history := history + [Started(full)];
      call := Some(ExecCall(clusterId, namespace, full));
    }

    /**
     * The second half of `executeCommand`, once the API has answered:
     * the last entry is settled, the input is cleared and re-enabled.
     */
    method Finish(reply: Result<string, string>)
      modifies this
      ensures history == Settled(old(history), reply)
      ensures command == "" && !executing
      ensures namespace == old(namespace) && namespaces == old(namespaces)
      ensures old(Valid()) ==> Valid()
    {
      history := Settled(history, reply);
      executing := false;
      command := "";
    }

    /** `handleKeyDown`: Enter runs the command unless one is running. */
    method KeyDown(key: string, clusterId: string) returns (call: Option<ExecCall>)
      modifies this
      ensures key != "Enter" || old(executing) ==>
        call.None? && history == old(history) && executing == old(executing)
      ensures key == "Enter" && !old(executing) && Trim(old(command)) != "" && clusterId != "" ==>
        call == Some(ExecCall(clusterId, namespace, Trim(old(command)))) &&
        history == old(history) + [Started(Trim(old(command)))] && executing
      ensures command == old(command) && namespace == old(namespace) && namespaces == old(namespaces)
      ensures old(Valid()) ==> Valid()
    {
      if key == "Enter" && !executing {
        call := Start(clusterId);
      } else {
        call := None;
      }
    }

    /** The 执行 button, disabled while a command runs or the command is blank. */
    method Click(clusterId: string) returns (call: Option<ExecCall>)
      modifies this
      ensures old(executing) || Trim(old(command)) == "" ==>
        call.None? && history == old(history) && executing == old(executing)
      ensures !old(executing) && Trim(old(command)) != "" && clusterId != "" ==>
        call == Some(ExecCall(clusterId, namespace, Trim(old(command)))) &&
        history == old(history) + [Started(Trim(old(command)))] && executing
      ensures command == old(command) && namespace == old(namespace) && namespaces == old(namespaces)
      ensures old(Valid()) ==> Valid()
    {
      if !executing && Trim(command) != "" {
        call := Start(clusterId);
      } else {
        call := None;
      }
    }
  }
}

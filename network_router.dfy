/** The brain router of `engine/network_router.py`: two Ollama hosts, their
    last probed availability, and the choice of host per kind of task. */
module NetworkRouter {

  const LocalBrain := "http://localhost:11434"
  const RemoteBrain := "http://192.168.0.69:11434"
  const LocalModel := "qwen3:14b"
  const RemoteModel := "gemma2:9b"

  /** `self.nodes`. */
  const Nodes: map<string, string> := map["local" := LocalBrain, "remote" := RemoteBrain]

  /** The outcome of `GET {url}/api/tags`: an HTTP status, or an exception
      (timeout, refused connection). */
  datatype Probe = Responded(status: int) | Unreachable

  /** `check_availability`: available exactly when the tags endpoint answered 200. */
  function CheckAvailability(p: Probe): (up: bool)
    ensures up <==> p == Responded(200)
  {
    match p
    case Responded(s) => s == 200
    case Unreachable => false
  }

  /** `ping_remote`, given the probe of the remote host. */
  function PingRemote(remote: Probe): (r: string)
    ensures r == "Online" || r == "Offline"
    ensures r == "Online" <==> CheckAvailability(remote)
  {
    if CheckAvailability(remote) then "Online" else "Offline"
  }

  lemma HostsDiffer()
    ensures LocalBrain != RemoteBrain
  {
    assert LocalBrain[7] != RemoteBrain[7];
  }

  /** `get_active_url`: a known node name gives its URL, anything else the local brain. */
  function GetActiveUrl(nodeName: string): (url: string)
    ensures url == LocalBrain || url == RemoteBrain
    ensures url == RemoteBrain <==> nodeName == "remote"
  {
    HostsDiffer();
    if nodeName in Nodes then Nodes[nodeName] else LocalBrain
  }

  class BrainRouter {
    /** `self.status['local']` and `self.status['remote']`. */
    var localOnline: bool
    var remoteOnline: bool

    constructor()
      ensures !localOnline && !remoteOnline
    {
      localOnline := false;
      remoteOnline := false;
    }

    /** `update_status`: both probes are taken, local first. */
    method UpdateStatus(local: Probe, remote: Probe)
      modifies this
      ensures localOnline == CheckAvailability(local)
      ensures remoteOnline == CheckAvailability(remote)
    {
      localOnline := CheckAvailability(local);
      remoteOnline := CheckAvailability(remote);
    }

    /** `get_primary_host`: chat stays local; reflection goes remote only while
        the remote host is online; any other task is local. */
    function GetPrimaryHost(taskType: string): (host: string)
      reads this
      ensures host == LocalBrain || host == RemoteBrain
      ensures host == RemoteBrain <==> taskType == "reflection" && remoteOnline
    {
      HostsDiffer();
      if taskType == "chat" then LocalBrain
      else if taskType == "reflection" then (if remoteOnline then RemoteBrain else LocalBrain)
      else LocalBrain
    }

    /** `route_query`: the node name of the chosen host. */
    function RouteQuery(taskType: string): (node: string)
      reads this
      ensures node == "remote" || node == "local"
      ensures node == "remote" <==> taskType == "reflection" && remoteOnline
      ensures GetActiveUrl(node) == GetPrimaryHost(taskType)
    {
      if GetPrimaryHost(taskType) == RemoteBrain then "remote" else "local"
    }
  }
}

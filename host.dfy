/** The process a session runs in, as far as the session can observe or
    change it: the lines it has printed to standard output and the HTTP
    requests it has sent, in order. What the server answers and what the
    clocks read are supplied by the callers as inputs. */
module Host {
  import opened Whoop

  class Process {
    var stdout: seq<string>
    var sent: seq<Request>

    constructor()
      ensures stdout == [] && sent == []
    {
      stdout := [];
      sent := [];
    }

    /** print(line) */
    method Print(line: string)
      modifies this`stdout
      ensures stdout == old(stdout) + [line]
    {
      stdout := stdout + [line];
    }

    /** requests.post / requests.get: the request goes out; its reply is an
        input of the caller. */
    method Send(request: Request)
      modifies this`sent
      ensures sent == old(sent) + [request]
    {
      sent := sent + [request];
    }
  }

  /** What two prints append one after the other is their concatenation. */
  lemma AppendAssoc<T>(x: seq<T>, y: seq<T>, z: seq<T>)
    ensures x + y + z == x + (y + z)
  {
  }
}

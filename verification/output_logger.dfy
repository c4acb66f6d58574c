/**
 * The two text sinks the deploy provider writes to.
 *
 * `OutputLogger` is the process-wide logger that the deploy provider re-points between the
 * text writer handed in by the host and the debug output pane. What connecting or
 * disconnecting does inside the logger is not part of this model, so the logger is modelled
 * by the ORDER of the calls made on it: every call appends one event.
 *
 * `PaneWriter` stands for the host's output-pane writer (and for the debug pane that Commit
 * writes to): the chunks of text written to it, in order.
 */
module Logging {

  datatype LogEvent =
    | DisconnectPane
    | ConnectTextWriter(writer: PaneWriter)
    | DisconnectTextWriter
    | ConnectPane(pane: PaneWriter)
    | Log(message: string)

  class OutputLogger {
    var events: seq<LogEvent>

    constructor ()
      ensures events == []
    {
      events := [];
    }

    method Record(e: LogEvent)
      modifies this
      ensures events == old(events) + [e]
    {
      events := events + [e];
    }
  }

  class PaneWriter {
    /** The chunks written to the pane since it was last cleared, oldest first. */
    var written: seq<string>
    /** Whether the host has been asked to bring the pane to the front. */
    var activated: bool

    constructor ()
      ensures written == [] && !activated
    {
      written := [];
      activated := false;
    }

    method Write(text: string)
      modifies this`written
      ensures written == old(written) + [text]
    {
      written := written + [text];
    }

    method Activate()
      modifies this`activated
      ensures activated
    {
      activated := true;
    }

    method Clear()
      modifies this`written
      ensures written == []
    {
      written := [];
    }
  }
}

/** The broadcaster's start/stop panel on the live page: a title,
    description, source and external URL form that starts a broadcast, and
    a stop dialog that ends it and clears the form. The start and stop
    callbacks belong to the live-stream hook; their calls are recorded and
    whether they throw is a parameter. */
module StreamControls {
  import opened Js
  import opened Ui
  import opened Text
  import opened LiveStreamHook

  class Controls {
    var title: string
    var description: string
    var source: StreamSource
    var externalUrl: string
    var isStarting: bool
    var showStopDialog: bool
    var starts: seq<StartCall>
    /** The `saveRecording` argument of each stop. */
    var stops: seq<bool>
    var toasts: seq<Toast>

    constructor ()
      ensures title == "" && description == "" && source == Camera && externalUrl == ""
      ensures !isStarting && !showStopDialog && starts == [] && stops == [] && toasts == []
    {
      title, description, source, externalUrl := "", "", Camera, "";
      isStarting, showStopDialog, starts, stops, toasts := false, false, [], [], [];
    }

    /** `handleStartStream`; `startThrows` says whether `onStartStream`
        rejected, in which case the error propagates to the caller (`threw`)
        after `isStarting` is reset. */
    method HandleStartStream(startThrows: bool) returns (threw: bool)
      modifies this
      // A blank title: nothing at all.
      ensures IsBlank(old(title)) ==>
        !threw && starts == old(starts) && toasts == old(toasts) && isStarting == old(isStarting)
      // An external source without a URL: an error toast and no start.
      ensures !IsBlank(old(title)) && old(source) == External && IsBlank(old(externalUrl)) ==>
        !threw && starts == old(starts) && isStarting == old(isStarting)
        && toasts == old(toasts) + [Toast("Error", "Please enter an external stream URL", true)]
      // Otherwise one start, with the URL only for an external source, and
      // `isStarting` false again whatever the outcome.
      ensures !IsBlank(old(title)) && !(old(source) == External && IsBlank(old(externalUrl))) ==>
        starts == old(starts) + [StartCall(old(title), old(description), ExternalUrlArgument(old(source), old(externalUrl)))]
        && !isStarting && threw == startThrows && toasts == old(toasts)
      ensures title == old(title) && description == old(description) && source == old(source)
      ensures externalUrl == old(externalUrl) && showStopDialog == old(showStopDialog) && stops == old(stops)
    {
      threw := false;
      if IsBlank(title) {
        return;
      }
      if source == External && IsBlank(externalUrl) {
        toasts := toasts + [Toast("Error", "Please enter an external stream URL", true)];
        return;
      }
      isStarting := true;
      starts := starts + [StartCall(title, description, ExternalUrlArgument(source, externalUrl))];
      isStarting := false;
      threw := startThrows;
    }

    /** `handleStopStream(saveRecording)`: stops, closes the dialog and
        clears the form, keeping the chosen source. */
    method HandleStopStream(saveRecording: bool)
      modifies this
      ensures stops == old(stops) + [saveRecording]
      ensures !showStopDialog && title == "" && description == "" && externalUrl == ""
      ensures source == old(source) && isStarting == old(isStarting)
      ensures starts == old(starts) && toasts == old(toasts)
    {
      stops := stops + [saveRecording];
      showStopDialog := false;
      title, description, externalUrl := "", "", "";
    }
  }

  /** After a stop the form cannot start again until a title is typed: the
      next start does nothing. */
  method StopThenStart(c: Controls, saveRecording: bool, startThrows: bool) returns (threw: bool)
    modifies c
    ensures c.starts == old(c.starts) && !threw
  {
    c.HandleStopStream(saveRecording);
    assert IsBlank(c.title);
    threw := c.HandleStartStream(startThrows);
  }
}

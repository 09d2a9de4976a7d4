/** The dedicated audio worker: one audio context, a table of decoded cue
    buffers (a file that failed is recorded as null), and the handlers for
    the page's messages. Every platform call's outcome is an input. */
module AudioWorker {
  import Options

  type Option<T> = Options.Option<T>

  const AudioFiles: seq<string> := ["run.mp3", "walk.mp3", "complete.mp3"]

  datatype ContextState = Running | Suspended

  /** Messages the worker posts back to the page. */
  datatype WorkerMessage = AudioInitialized(success: bool) | Vibrate(fileName: string, success: bool)

  /** The outcome of buffer playback for a given worker state: it needs a
      context and a non-null buffer stored under exactly this name; a
      suspended context must resume first; then starting must succeed. */
  function BufferPlayback(context: Option<ContextState>, buffers: map<string, bool>, fileName: string,
                          resumeOk: bool, startOk: bool): bool
  {
    context.Some? && fileName in buffers && buffers[fileName]
    && (context.value == Suspended ==> resumeOk) && startOk
  }

  class Globals {
    var audioContext: Option<ContextState>
    /** true: a decoded buffer; false: the file is recorded as null. */
    var audioBuffers: map<string, bool>
    var outbox: seq<WorkerMessage>

    constructor ()
      ensures audioContext == Options.None && audioBuffers == map[] && outbox == []
    {
      audioContext, audioBuffers, outbox := Options.None, map[], [];
    }

    /** INIT_AUDIO. Without an AudioContext class, or when constructing one
        throws, it reports failure and changes nothing else. Otherwise every
        file is attempted in turn, each recorded as decoded or null, and it
        reports success whatever the files did. */
    method InitializeAudio(classAvailable: bool, constructs: bool, initialState: ContextState, loaded: seq<bool>)
      requires |loaded| == |AudioFiles|
      modifies this
      ensures outbox == old(outbox) + [AudioInitialized(classAvailable && constructs)]
      ensures audioContext == if classAvailable && constructs then Options.Some(initialState) else old(audioContext)
      ensures !(classAvailable && constructs) ==> audioBuffers == old(audioBuffers)
      ensures classAvailable && constructs ==>
        (forall i :: 0 <= i < |AudioFiles| ==> AudioFiles[i] in audioBuffers && audioBuffers[AudioFiles[i]] == loaded[i])
      ensures classAvailable && constructs ==>
        audioBuffers.Keys == old(audioBuffers).Keys + set f | f in AudioFiles
      ensures forall f :: f in old(audioBuffers) && f !in AudioFiles ==> f in audioBuffers && audioBuffers[f] == old(audioBuffers)[f]
    {
      if !classAvailable || !constructs {
        outbox := outbox + [AudioInitialized(false)];
        return;
      }
      audioContext := Options.Some(initialState);
      for i := 0 to |AudioFiles|
        invariant forall j :: 0 <= j < i ==> AudioFiles[j] in audioBuffers && audioBuffers[AudioFiles[j]] == loaded[j]
        invariant audioBuffers.Keys == old(audioBuffers).Keys + set j | 0 <= j < i :: AudioFiles[j]
        invariant forall f :: f in old(audioBuffers) && f !in AudioFiles ==> f in audioBuffers && audioBuffers[f] == old(audioBuffers)[f]
        invariant audioContext == Options.Some(initialState) && outbox == old(outbox)
      {
        audioBuffers := audioBuffers[AudioFiles[i] := loaded[i]];
      }
      assert (set j | 0 <= j < |AudioFiles| :: AudioFiles[j]) == set f | f in AudioFiles;
      outbox := outbox + [AudioInitialized(true)];
    }

    /** Buffer playback. A suspended context is resumed first, which leaves
        it running when the resume succeeds. */
    method PlayAudioBuffer(fileName: string, resumeOk: bool, startOk: bool) returns (ok: bool)
      modifies this`audioContext
      ensures ok == BufferPlayback(old(audioContext), audioBuffers, fileName, resumeOk, startOk)
      ensures audioContext == if old(audioContext) == Options.Some(Suspended) && fileName in audioBuffers
                                  && audioBuffers[fileName] && resumeOk
                              then Options.Some(Running) else old(audioContext)
    {
      if audioContext.None? || fileName !in audioBuffers || !audioBuffers[fileName] {
        return false;
      }
      if audioContext.value == Suspended {
        if !resumeOk {
          return false;
        }
        audioContext := Options.Some(Running);
      }
      ok := startOk;
    }

    /** PLAY_AUDIO: buffer playback, then the audio-element fallback only if
        that failed, then exactly one VIBRATE message with the final outcome. */
    method PlayAudioMessage(fileName: string, resumeOk: bool, startOk: bool, elementOk: bool)
      returns (success: bool, elementTried: bool)
      modifies this`audioContext, this`outbox
      ensures elementTried == !BufferPlayback(old(audioContext), audioBuffers, fileName, resumeOk, startOk)
      ensures success == (!elementTried || elementOk)
      ensures outbox == old(outbox) + [Vibrate(fileName, success)]
      ensures audioContext == if old(audioContext) == Options.Some(Suspended) && fileName in audioBuffers
                                  && audioBuffers[fileName] && resumeOk
                              then Options.Some(Running) else old(audioContext)
    {
      success := PlayAudioBuffer(fileName, resumeOk, startOk);
      elementTried := false;
      if !success {
        elementTried := true;
        success := elementOk;
      }
      outbox := outbox + [Vibrate(fileName, success)];
    }

    /** SUSPEND_AUDIO: only a running context is suspended, and only when
        the platform's suspend succeeds. */
    method SuspendAudio(suspendOk: bool)
      modifies this`audioContext
      ensures audioContext == if old(audioContext) == Options.Some(Running) && suspendOk
                              then Options.Some(Suspended) else old(audioContext)
    {
      if audioContext == Options.Some(Running) && suspendOk {
        audioContext := Options.Some(Suspended);
      }
    }

    /** RESUME_AUDIO: only a suspended context is resumed, and only when the
        platform's resume succeeds. */
    method ResumeAudio(resumeOk: bool)
      modifies this`audioContext
      ensures audioContext == if old(audioContext) == Options.Some(Suspended) && resumeOk
                              then Options.Some(Running) else old(audioContext)
    {
      if audioContext == Options.Some(Suspended) && resumeOk {
        audioContext := Options.Some(Running);
      }
    }
  }

  /** A null or missing buffer, or no context, always fails buffer playback. */
  lemma NoBufferNoPlayback(context: Option<ContextState>, buffers: map<string, bool>, fileName: string,
                           resumeOk: bool, startOk: bool)
    requires context.None? || fileName !in buffers || !buffers[fileName]
    ensures !BufferPlayback(context, buffers, fileName, resumeOk, startOk)
  {
  }
}

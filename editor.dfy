/**
 * The editor of components/ImageEditor.tsx: the chosen file, the prompt,
 * the error line, the loading flag and the generated image, and the
 * handlers that change them.
 *
 * A click on the generate button runs `handleGenerate` up to the awaited
 * call to the remote service (`Generate`, which yields the request sent);
 * the code after the await runs when the call settles (`Complete`, which
 * yields the record handed to `onGenerate`, if any). Choosing a file and
 * the file reader's completion are two steps as well (`SelectFile`,
 * `ReaderDone`). The remote service and the file reader are outside the
 * model: their results are parameters.
 */
module Editor {
  import opened Outcome
  import opened History

  /** A chosen file; only its size is inspected. */
  datatype File = File(name: string, size: nat)

  /** The upload limit: 4 MB. */
  const MaxUploadBytes: nat := 4 * 1024 * 1024

  const SizeError: string := "Image size should be less than 4MB."
  const MissingInputError: string := "Please upload an image and provide a prompt."
  const UnknownError: string := "An unknown error occurred."

  /** A value thrown by the remote call: an `Error` instance or anything else. */
  datatype Thrown = ErrorInstance(message: string) | OtherValue

  /** How the awaited remote call settled. */
  datatype Remote = Generated(resultUrl: string) | Threw(thrown: Thrown)

  /**
   * What a click captures: the prompt and file it sends, and the data URL
   * shown at that moment (null before any read has finished or after a
   * failed read; the previous file's while a new file is still being read).
   */
  datatype Request = Request(prompt: string, file: File, imageUrl: Option<string>)

  /** The editor's state variables. */
  datatype EditorState = EditorState(
    file: Option<File>,
    imageUrl: Option<string>,
    prompt: string,
    generatedUrl: Option<string>,
    loading: bool,
    error: Option<string>)

  /** The state on mount. */
  const Initial: EditorState := EditorState(None, None, "", None, false, None)

  /** No generated image is shown while a call is in flight. */
  predicate Consistent(s: EditorState)
  {
    s.loading ==> s.generatedUrl.None?
  }

  /** The error line for a thrown value. */
  function ErrorMessage(t: Thrown): string
  {
    match t
    case ErrorInstance(message) => message
    case OtherValue => UnknownError
  }

  /**
   * `handleFileSelect`: nothing chosen changes nothing; a file over the limit
   * only sets the size error; any other file is taken and the error cleared,
   * and a read of it starts. The data URL is not touched until that read ends.
   */
  function SelectStep(s: EditorState, chosen: Option<File>): EditorState
  {
    match chosen
    case None => s
    case Some(f) =>
      if f.size > MaxUploadBytes then s.(error := Some(SizeError))
      else s.(error := None, file := Some(f))
  }

  /**
   * The reader's `onloadend`: the data URL becomes the reader's result, which
   * is null when the read failed.
   */
  function ReadStep(s: EditorState, result: Option<string>): EditorState
  {
    s.(imageUrl := result)
  }

  /** The prompt text area and the preset buttons. */
  function PromptStep(s: EditorState, text: string): EditorState
  {
    s.(prompt := text)
  }

  /**
   * `handleGenerate` up to the await: refuse without a file or a prompt;
   * otherwise clear the error and the generated image, raise the loading
   * flag and send the request.
   */
  function StartStep(s: EditorState): (EditorState, Option<Request>)
  {
    if s.file.None? || s.prompt == [] then
      (s.(error := Some(MissingInputError)), None)
    else
      (s.(error := None, loading := true, generatedUrl := None),
       Some(Request(s.prompt, s.file.value, s.imageUrl)))
  }

  /**
   * `handleGenerate` after the await: on success show the result and hand a
   * record built from the request to `onGenerate`; on failure show the error;
   * in both cases lower the loading flag.
   */
  function CompleteStep(s: EditorState, request: Request, outcome: Remote, id: string, timestamp: string)
    : (EditorState, Option<Item>)
  {
    match outcome
    case Generated(url) =>
      (s.(generatedUrl := Some(url), loading := false),
       Some(Item(id, request.imageUrl, request.prompt, url, timestamp)))
    case Threw(thrown) =>
      (s.(error := Some(ErrorMessage(thrown)), loading := false), None)
  }

  /** The generate button is enabled (the negation of its `disabled` expression). */
  predicate GenerateEnabled(s: EditorState)
  {
    !s.loading && s.file.Some? && s.prompt != []
  }

  /** Every handler keeps the state consistent. */
  lemma StepsKeepConsistent(s: EditorState, chosen: Option<File>, result: Option<string>, text: string,
                            request: Request, outcome: Remote, id: string, timestamp: string)
    requires Consistent(s)
    ensures Consistent(SelectStep(s, chosen))
    ensures Consistent(ReadStep(s, result))
    ensures Consistent(PromptStep(s, text))
    ensures Consistent(StartStep(s).0)
    ensures Consistent(CompleteStep(s, request, outcome, id, timestamp).0)
  {
  }

  /**
   * Choosing a file: no file is a no-op; an oversized file sets the size
   * error and keeps the previous file; an accepted file replaces it and
   * clears the error, while the data URL stays what it was.
   */
  lemma SelectOutcomes(s: EditorState, chosen: Option<File>)
    ensures chosen.None? ==> SelectStep(s, chosen) == s
    ensures chosen.Some? && chosen.value.size > MaxUploadBytes ==>
      var t := SelectStep(s, chosen);
      t.error == Some(SizeError) && t.file == s.file && t.imageUrl == s.imageUrl
      && t.prompt == s.prompt && t.generatedUrl == s.generatedUrl && t.loading == s.loading
    ensures chosen.Some? && chosen.value.size <= MaxUploadBytes ==>
      var t := SelectStep(s, chosen);
      t.error == None && t.file == chosen && t.imageUrl == s.imageUrl
      && t.prompt == s.prompt && t.generatedUrl == s.generatedUrl && t.loading == s.loading
  {
  }

  /**
   * A click between choosing a new file and the end of its read sends the
   * new file but captures the data URL that was shown before, which on
   * success becomes the original image of the record handed to `onGenerate`.
   */
  lemma ClickBeforeReadEnds(s: EditorState, f: File, outcome: Remote, id: string, timestamp: string)
    requires f.size <= MaxUploadBytes && s.prompt != []
    requires outcome.Generated?
    ensures var (started, sent) := StartStep(SelectStep(s, Some(f)));
      sent == Some(Request(s.prompt, f, s.imageUrl))
      && CompleteStep(started, sent.value, outcome, id, timestamp).1
         == Some(Item(id, s.imageUrl, s.prompt, outcome.resultUrl, timestamp))
  {
  }

  /**
   * A failed read leaves the file chosen with a null data URL: a click is
   * still accepted, and on success hands over a record with a null original
   * image.
   */
  lemma ClickAfterFailedRead(s: EditorState, outcome: Remote, id: string, timestamp: string)
    requires s.file.Some? && s.prompt != []
    requires outcome.Generated?
    ensures var (started, sent) := StartStep(ReadStep(s, None));
      sent == Some(Request(s.prompt, s.file.value, None))
      && CompleteStep(started, sent.value, outcome, id, timestamp).1
         == Some(Item(id, None, s.prompt, outcome.resultUrl, timestamp))
  {
  }

  /**
   * The record handed over after a failed read never reaches the history:
   * `handleNewGeneration` cannot thumbnail its null original image and
   * leaves the history and its slot as they were.
   */
  lemma FailedReadRecordDropped(s: EditorState, outcome: Remote, id: string, timestamp: string,
                                h: Store, resize: Resizer, writeOk: bool)
    requires s.file.Some? && s.prompt != []
    requires outcome.Generated?
    ensures var (started, sent) := StartStep(ReadStep(s, None));
      var handed := CompleteStep(started, sent.value, outcome, id, timestamp).1;
      handed.Some? && AppendStep(h, handed.value, resize, writeOk) == h
  {
    ClickAfterFailedRead(s, outcome, id, timestamp);
    NullOriginalNeverStored(h, Item(id, None, s.prompt, outcome.resultUrl, timestamp), resize, writeOk);
  }

  /**
   * A click is refused exactly when no file is chosen or the prompt is empty;
   * a refused click sends nothing and only sets the missing-input error.
   */
  lemma RefusedClick(s: EditorState)
    ensures StartStep(s).1.None? <==> s.file.None? || s.prompt == []
    ensures StartStep(s).1.None? ==> StartStep(s).0 == s.(error := Some(MissingInputError))
  {
  }

  /** The button is enabled exactly when nothing is loading and a click would be accepted. */
  lemma EnabledExactlyWhenAccepted(s: EditorState)
    ensures GenerateEnabled(s) <==> !s.loading && StartStep(s).1.Some?
  {
  }

  /**
   * An accepted click followed by the settling of its call: the loading flag
   * is down whatever the outcome; on success the result is shown and exactly
   * one record, built from the prompt, data URL and result of that click, is
   * handed to `onGenerate`; on failure nothing is handed over, the error line
   * shows the failure and no generated image is shown.
   */
  lemma GenerateRound(s: EditorState, outcome: Remote, id: string, timestamp: string)
    requires s.file.Some? && s.prompt != []
    ensures var (started, sent) := StartStep(s);
      sent == Some(Request(s.prompt, s.file.value, s.imageUrl))
      && started.loading && started.generatedUrl.None? && started.error.None?
      && var (done, handed) := CompleteStep(started, sent.value, outcome, id, timestamp);
      && !done.loading
      && done.file == s.file && done.prompt == s.prompt
      && (outcome.Generated? ==>
            done.generatedUrl == Some(outcome.resultUrl) && done.error.None?
            && handed == Some(Item(id, s.imageUrl, s.prompt, outcome.resultUrl, timestamp)))
      && (outcome.Threw? ==>
            done.generatedUrl.None? && done.error == Some(ErrorMessage(outcome.thrown))
            && handed.None?)
  {
  }

  /** An error instance's message is shown verbatim; any other thrown value gives the generic message. */
  lemma ErrorMessageShown(outcome: Remote)
    requires outcome.Threw?
    ensures outcome.thrown.ErrorInstance? ==> ErrorMessage(outcome.thrown) == outcome.thrown.message
    ensures outcome.thrown.OtherValue? ==> ErrorMessage(outcome.thrown) == UnknownError
  {
  }

  /** The ImageEditor component's state, updated in place by its handlers. */
  class ImageEditor {
    var file: Option<File>
    var imageUrl: Option<string>
    var prompt: string
    var generatedUrl: Option<string>
    var loading: bool
    var error: Option<string>

    ghost predicate Valid()
      reads this
    {
      Consistent(State())
    }

    function State(): EditorState
      reads this
    {
      EditorState(file, imageUrl, prompt, generatedUrl, loading, error)
    }

    constructor ()
      ensures Valid()
      ensures State() == Initial
    {
      file, imageUrl, prompt := None, None, "";
      generatedUrl, loading, error := None, false, None;
    }

    /** `handleFileSelect`, up to starting the read of the chosen file. */
    method SelectFile(chosen: Option<File>)
      requires Valid()
      modifies this
      ensures Valid()
      ensures State() == SelectStep(old(State()), chosen)
    {
      if chosen.None? {
        return;
      }
      var f := chosen.value;
      if f.size > MaxUploadBytes {
        error := Some(SizeError);
        return;
      }
      error := None;
      file := Some(f);
    }

    /** The reader's `onloadend`, with its result (null when the read failed). */
    method ReaderDone(result: Option<string>)
      requires Valid()
      modifies this
      ensures Valid()
      ensures State() == ReadStep(old(State()), result)
    {
      imageUrl := result;
    }

    /** Editing the prompt or picking a preset. */
    method SetPrompt(text: string)
      requires Valid()
      modifies this
      ensures Valid()
      ensures State() == PromptStep(old(State()), text)
    {
      prompt := text;
    }

    /** A click on the generate button, up to the awaited remote call. */
    method Generate() returns (sent: Option<Request>)
      requires Valid()
      modifies this
      ensures Valid()
      ensures (State(), sent) == StartStep(old(State()))
    {
      if file.None? || prompt == [] {
        error := Some(MissingInputError);
        return None;
      }
      error := None;
      loading := true;
      generatedUrl := None;
      sent := Some(Request(prompt, file.value, imageUrl));
    }

    /** The rest of `handleGenerate`, once the call for `request` has settled. */
    method Complete(request: Request, outcome: Remote, id: string, timestamp: string) returns (handed: Option<Item>)
      requires Valid()
      modifies this
      ensures Valid()
      ensures (State(), handed) == CompleteStep(old(State()), request, outcome, id, timestamp)
    {
      handed := None;
      match outcome {
        case Generated(url) =>
          generatedUrl := Some(url);
          handed := Some(Item(id, request.imageUrl, request.prompt, url, timestamp));
        case Threw(thrown) =>
          error := Some(ErrorMessage(thrown));
      }
      loading := false;
    }
  }
}

/**
 * The controller that mediates between gaze tracking and OCR: a one-slot
 * mailbox for the latest background OCR request, moving the mouse to a word,
 * and selecting a range of on-screen text by dragging from one word to another.
 */
module GazeOcr {
  import opened Wrappers
  import opened Geometry
  import Words

  /** Where, relative to a matched word, the coordinates should point. */
  datatype CursorPosition = Before | Middle | After

  /**
   * The result of one OCR pass: the gaze point that anchored the scan and the
   * OCR library's nearest-word lookup, which lies outside this model.
   */
  datatype ScreenContents = ScreenContents(
    screenCoordinates: Point,
    findNearestWordCoordinates: (string, CursorPosition) -> Option<Point>)

  /** The OCR reader: the radius of the region it scans and the scan itself. */
  datatype OcrReader = OcrReader(radius: real, readNearby: Point -> ScreenContents)

  /** The one pending background request: the gaze point it reads near, and whether it has completed. */
  datatype Request = Request(gaze: Point, done: bool)

  /** The exceptions the controller's operations can raise. */
  datatype Error =
    | NotStarted   // RuntimeError: no request was ever made
    | EmptyPhrase  // IndexError: the phrase to split holds no word

  /** The start word and the optional end word after a phrase has been split. */
  datatype SelectionWords = SelectionWords(start: string, end: Option<string>)

  /** Python truthiness of an optional string: neither `None` nor empty. */
  predicate Truthy(s: Option<string>)
  {
    s.Some? && s.value != []
  }

  /** Whether `select_text` breaks its start word into a phrase's first and last words. */
  predicate SplitsPhrase(startWord: string, endWord: Option<string>)
  {
    ' ' in startWord && !Truthy(endWord)
  }

  /**
   * The start and end words `select_text` works with: a start word holding a
   * space, given with no end word, becomes its first word and its last word
   * becomes the end word; otherwise both are kept as given.
   */
  function SplitSelection(startWord: string, endWord: Option<string>): (r: Result<SelectionWords, Error>)
    ensures r.Failure? <==> SplitsPhrase(startWord, endWord) && Words.AllWhitespace(startWord)
    ensures r.Failure? ==> r.error == EmptyPhrase
    ensures r.Success? && SplitsPhrase(startWord, endWord) ==>
      var words := Words.Split(startWord);
      && r.value.start == words[0]
      && r.value.end == Some(words[|words| - 1])
      && r.value.start != [] && Words.NoWhitespace(r.value.start)
      && Truthy(r.value.end) && Words.NoWhitespace(r.value.end.value)
    ensures !SplitsPhrase(startWord, endWord) ==> r == Success(SelectionWords(startWord, endWord))
  {
    if SplitsPhrase(startWord, endWord) then
      var words := Words.Split(startWord);
      if words == [] then Failure(EmptyPhrase)
      else Success(SelectionWords(words[0], Some(words[|words| - 1])))
    else
      Success(SelectionWords(startWord, endWord))
  }

  /** A phrase of two words is selected from its first word to its last. */
  lemma SplitSelectionOfPhrase()
    ensures SplitSelection("hello world", None) == Success(SelectionWords("hello", Some("world")))
  {
    Words.SplitTwoWords();
  }

  /** The word the selection ends at: the end word if there is one, else the start word itself. */
  function EndWord(words: SelectionWords): (w: string)
  {
    if Truthy(words.end) then words.end.value else words.start
  }

  /**
   * Where `select_text` ends: at the last word of a split phrase, at the end
   * word when one is given, and otherwise at the single start word itself.
   */
  lemma SelectionEnd(startWord: string, endWord: Option<string>)
    requires SplitSelection(startWord, endWord).Success?
    ensures var w := EndWord(SplitSelection(startWord, endWord).value);
      && (SplitsPhrase(startWord, endWord) ==>
            var words := Words.Split(startWord);
            w == words[|words| - 1] && w != [] && Words.NoWhitespace(w))
      && (Truthy(endWord) ==> w == endWord.value)
      && (!Truthy(endWord) && ' ' !in startWord ==> w == startWord)
  {
  }

  /** A single word, with no end word given, is selected from itself to itself. */
  lemma SingleWordSelection(word: string, endWord: Option<string>)
    requires !Truthy(endWord) && ' ' !in word
    ensures SplitSelection(word, endWord) == Success(SelectionWords(word, endWord))
    ensures EndWord(SplitSelection(word, endWord).value) == word
  {
  }

  /** Whether the gaze has moved further than half the scan radius from where the last scan was anchored. */
  predicate GazeMoved(current: Point, previous: Point, radius: real)
    ensures GazeMoved(current, previous, radius) ==> current != previous
  {
    DistanceSquared(current, previous) > Squared(radius / 2.0)
  }

  /** A gaze that has not moved never triggers a new scan. */
  lemma StillGazeNeverMoves(p: Point, radius: real)
    ensures !GazeMoved(p, p, radius)
  {
  }

  /** Whether the gaze has moved does not depend on which of the two points is the current one. */
  lemma GazeMovedSymmetric(a: Point, b: Point, radius: real)
    ensures GazeMoved(a, b, radius) <==> GazeMoved(b, a, radius)
  {
    DistanceSquaredSymmetric(a, b);
  }

  class Controller {
    const ocrReader: OcrReader
    /** The single background request slot (`_future`); `None` until the first request. */
    var future: Option<Request>
    /** The gaze points of the requests that were submitted, oldest first. */
    var requests: seq<Point>
    /** The gaze points of the requests that were cancelled, oldest first. */
    var cancelled: seq<Point>
    /** The mouse actions issued so far, oldest first. */
    var mouse: seq<MouseEvent>

    /** The slot holds the most recently submitted request, and is empty only before the first one. */
    ghost predicate Valid()
      reads this
    {
      && (future.None? <==> requests == [])
      && (future.Some? ==> future.value.gaze == requests[|requests| - 1])
    }

    constructor (ocrReader: OcrReader)
      ensures Valid()
      ensures this.ocrReader == ocrReader
      ensures future == None && requests == [] && cancelled == [] && mouse == []
    {
      this.ocrReader := ocrReader;
      future := None;
      requests := [];
      cancelled := [];
      mouse := [];
    }

    /** The screen contents a request anchored at `gaze` yields. */
    function Contents(gaze: Point): (contents: ScreenContents)
    {
      ocrReader.readNearby(gaze)
    }

    /**
     * `start_reading_nearby`: replace the pending request by one that reads near
     * `gaze`. The previous request is cancelled only if there is one and it has
     * not completed (`finishedMeanwhile` says whether the worker finished it
     * since it was last observed).
     */
    method StartReadingNearby(gaze: Point, finishedMeanwhile: bool)
      requires Valid()
      modifies this
      ensures Valid()
      ensures future == Some(Request(gaze, false))
      ensures requests == old(requests) + [gaze]
      ensures cancelled == old(cancelled) +
        (if old(future).Some? && !old(future).value.done && !finishedMeanwhile
         then [old(future).value.gaze] else [])
      ensures mouse == old(mouse)
    {
      if future.Some? && !future.value.done && !finishedMeanwhile {
        cancelled := cancelled + [future.value.gaze];
      }
      future := Some(Request(gaze, false));
      requests := requests + [gaze];
    }

    /**
     * `latest_screen_contents`: fail if no request was ever made; otherwise wait
     * for the latest request and return what it read.
     */
    method LatestScreenContents() returns (r: Result<ScreenContents, Error>)
      requires Valid()
      modifies this
      ensures Valid()
      ensures old(future).None? ==> r == Failure(NotStarted) && future == None
      ensures old(future).Some? ==>
        && r == Success(Contents(old(future).value.gaze))
        && future == Some(Request(old(future).value.gaze, true))
      ensures requests == old(requests) && cancelled == old(cancelled) && mouse == old(mouse)
    {
      if future.None? {
        return Failure(NotStarted);
      }
      future := Some(future.value.(done := true));
      r := Success(Contents(future.value.gaze));
    }

    /**
     * `move_cursor_to_word`: look the word up in the latest screen contents and
     * move the mouse there; the result says whether the word was found.
     */
    method MoveCursorToWord(word: string, position: CursorPosition) returns (r: Result<bool, Error>)
      requires Valid()
      modifies this
      ensures Valid()
      ensures old(future).None? ==> r == Failure(NotStarted) && future == None && mouse == old(mouse)
      ensures old(future).Some? ==>
        var found := Contents(old(future).value.gaze).findNearestWordCoordinates(word, position);
        && r == Success(found.Some?)
        && mouse == old(mouse) + (if found.Some? then [Move(found.value)] else [])
        && future == Some(Request(old(future).value.gaze, true))
      ensures requests == old(requests) && cancelled == old(cancelled)
    {
      var contents := LatestScreenContents();
      if contents.Failure? {
        return Failure(contents.error);
      }
      var coordinates := contents.value.findNearestWordCoordinates(word, position);
      if coordinates.Some? {
        mouse := mouse + [Move(coordinates.value)];
        r := Success(true);
      } else {
        r := Success(false);
      }
    }

    /**
     * `select_text`: move to the start word, re-scan if the gaze has wandered
     * more than half the scan radius from where the last scan was anchored, find
     * the end word (the start word when none is given) and drag to it. The
     * tracker is read twice: `gaze` for the distance test and `rescanGaze` when
     * the new request reads it again.
     */
    method SelectText(startWord: string, endWord: Option<string>, gaze: Point, rescanGaze: Point)
      returns (r: Result<bool, Error>)
      requires Valid()
      modifies this
      ensures Valid()
      ensures cancelled == old(cancelled)
      ensures SplitSelection(startWord, endWord).Failure? ==>
        r == Failure(EmptyPhrase) && future == old(future) && requests == old(requests) && mouse == old(mouse)
      ensures SplitSelection(startWord, endWord).Success? && old(future).None? ==>
        r == Failure(NotStarted) && future == old(future) && requests == old(requests) && mouse == old(mouse)
      ensures SplitSelection(startWord, endWord).Success? && old(future).Some? ==>
        var words := SplitSelection(startWord, endWord).value;
        var first := Contents(old(future).value.gaze);
        var startAt := first.findNearestWordCoordinates(words.start, Before);
        && (startAt.None? ==>
              && r == Success(false)
              && mouse == old(mouse)
              && requests == old(requests)
              && future == Some(Request(old(future).value.gaze, true)))
        && (startAt.Some? ==>
              var rescan := Truthy(words.end) && GazeMoved(gaze, first.screenCoordinates, ocrReader.radius);
              var anchor := if rescan then rescanGaze else old(future).value.gaze;
              var endAt := Contents(anchor).findNearestWordCoordinates(EndWord(words), After);
              && requests == old(requests) + (if rescan then [rescanGaze] else [])
              && future == Some(Request(anchor, true))
              && r == Success(endAt.Some?)
              && mouse == old(mouse) + [Move(startAt.value)] +
                 (if endAt.Some? then [ClickDown, Move(endAt.value), ClickUp] else []))
    {
      var words := SplitSelection(startWord, endWord);
      if words.Failure? {
        return Failure(words.error);
      }
      var start, end := words.value.start, words.value.end;
      var moved := MoveCursorToWord(start, Before);
      if moved.Failure? {
        return Failure(moved.error);
      }
      if !moved.value {
        return Success(false);
      }
      var endText: string;
      if Truthy(end) {
        endText := end.value;
        var previous := LatestScreenContents();
        if GazeMoved(gaze, previous.value.screenCoordinates, ocrReader.radius) {
          StartReadingNearby(rescanGaze, false);
        }
      } else {
        endText := start;
      }
      var contents := LatestScreenContents();
      var endCoordinates := contents.value.findNearestWordCoordinates(endText, After);
      if endCoordinates.None? {
        return Success(false);
      }
      mouse := mouse + [ClickDown, Move(endCoordinates.value), ClickUp];
      r := Success(true);
    }
  }
}

/**
 * The studies tab: a study stopwatch whose stopped runs become study sessions, the
 * weekly 20-hour goal bar, and a small library of books moved between three shelves.
 */
module EstudosIntelecto {
  import opened Wrappers
  import opened Text
  import opened Records

  datatype BookStatus = Lendo | Lido | QueroLer

  datatype Book = Book(id: string, title: string, author: string, status: BookStatus)

  /** One stopped stopwatch run; `duration` is in seconds. */
  datatype StudySession = StudySession(id: string, date: string, duration: int, subject: string)

  /** The add-book dialog; its status is fixed to "quero-ler" by the form's type, so it is not a field. */
  datatype BookForm = BookForm(title: string, author: string)

  const EmptyBookForm := BookForm("", "")

  /** Twenty hours, in seconds. */
  const WeeklyGoal: int := 20 * 3600

  // ---------------------------------------------------------------- the clock display

  /**
   * `formatTime`: hours, minutes and seconds, each padded to two digits, joined by ':'.
   * Under a hundred hours the display is exactly "HH:MM:SS".
   */
  function FormatTime(seconds: nat): (r: string)
    ensures seconds < 100 * 3600 ==> |r| == 8 && r[2] == ':' && r[5] == ':'
  {
    var h, m, s := TwoDigits(seconds / 3600), TwoDigits(seconds % 3600 / 60), TwoDigits(seconds % 60);
    HoursFitTwoDigits(seconds);
    ClockDisplayShape(h, m, s);
    h + ":" + m + ":" + s
  }

  /** Under a hundred hours the hour count has two digits. */
  lemma HoursFitTwoDigits(seconds: nat)
    ensures seconds < 100 * 3600 ==> |TwoDigits(seconds / 3600)| == 2
  {
    if seconds < 100 * 3600 {
      assert seconds / 3600 < 100;
    }
  }

  /** Three two-character groups joined by ':' make "HH:MM:SS". */
  lemma ClockDisplayShape(h: string, m: string, s: string)
    requires |m| == 2 && |s| == 2
    ensures var d := h + ":" + m + ":" + s;
      |h| == 2 ==> |d| == 8 && d[2] == ':' && d[5] == ':'
  {
  }

  /** The seconds in `h` hours, `m` minutes and `s` seconds. */
  function ClockSeconds(h: nat, m: nat, s: nat): nat
  {
    h * 3600 + m * 60 + s
  }

  /** Reads a clock display back: three digit groups separated by ':'. */
  function ParseTime(s: string): Option<nat>
  {
    var parts := Split(s, ':');
    if |parts| == 3 && AllDigits(parts[0]) && AllDigits(parts[1]) && AllDigits(parts[2]) then
      Some(ClockSeconds(ParseDigits(parts[0]), ParseDigits(parts[1]), ParseDigits(parts[2])))
    else
      None
  }

  /** Three digit groups joined by ':' split back into the same three groups. */
  lemma SplitClock(h: string, m: string, s: string)
    requires AllDigits(h) && AllDigits(m) && AllDigits(s)
    ensures Split(h + ":" + m + ":" + s, ':') == [h, m, s]
  {
    assert forall t: string :: AllDigits(t) ==> ':' !in t;
    assert h + ":" + m + ":" + s == h + [':'] + (m + [':'] + s);
    SplitAfterPiece(h, m + [':'] + s, ':');
    SplitAfterPiece(m, s, ':');
    SplitNoSeparator(s, ':');
  }

  /** Hours, minutes and seconds add back up to the elapsed time. */
  lemma ClockArithmetic(seconds: nat)
    ensures ClockSeconds(seconds / 3600, seconds % 3600 / 60, seconds % 60) == seconds
  {
    var h, rest := seconds / 3600, seconds % 3600;
    assert seconds == h * 3600 + rest;
    assert rest == (rest / 60) * 60 + rest % 60;
    assert rest % 60 == seconds % 60 by {
      assert seconds == (h * 60) * 60 + rest;
    }
  }

  /** Reading back three padded groups gives the seconds they stand for. */
  lemma ParseClockGroups(hh: nat, mm: nat, ss: nat)
    ensures ParseTime(TwoDigits(hh) + ":" + TwoDigits(mm) + ":" + TwoDigits(ss)) == Some(ClockSeconds(hh, mm, ss))
  {
    var h, m, s := TwoDigits(hh), TwoDigits(mm), TwoDigits(ss);
    var str := h + ":" + m + ":" + s;
    SplitClock(h, m, s);
    var parts := Split(str, ':');
    assert parts[0] == h && parts[1] == m && parts[2] == s;
    TwoDigitsRoundTrip(hh);
    TwoDigitsRoundTrip(mm);
    TwoDigitsRoundTrip(ss);
    assert ParseTime(str) == Some(ClockSeconds(ParseDigits(h), ParseDigits(m), ParseDigits(s)));
  }

  /** The display loses nothing: reading it back gives the elapsed seconds. */
  lemma FormatTimeRoundTrip(seconds: nat)
    ensures ParseTime(FormatTime(seconds)) == Some(seconds)
  {
    ParseClockGroups(seconds / 3600, seconds % 3600 / 60, seconds % 60);
    ClockArithmetic(seconds);
  }

  /**
   * The display's three fields: the whole hours (at least two digits), then the minutes
   * and the seconds left over, each below 60 and exactly two digits wide.
   */
  lemma FormatTimeFields(seconds: nat)
    ensures var p := Split(FormatTime(seconds), ':');
      && |p| == 3 && AllDigits(p[0]) && AllDigits(p[1]) && AllDigits(p[2])
      && |p[0]| >= 2 && |p[1]| == 2 && |p[2]| == 2
      && ParseDigits(p[0]) == seconds / 3600
      && ParseDigits(p[1]) == seconds % 3600 / 60 < 60
      && ParseDigits(p[2]) == seconds % 60 < 60
  {
    var h, m, s := seconds / 3600, seconds % 3600 / 60, seconds % 60;
    SplitClock(TwoDigits(h), TwoDigits(m), TwoDigits(s));
    TwoDigitsRoundTrip(h);
    TwoDigitsRoundTrip(m);
    TwoDigitsRoundTrip(s);
  }

  // ---------------------------------------------------------------- totals and shelves

  function SessionDuration(): StudySession -> int
  {
    (s: StudySession) => s.duration
  }

  /** `totalStudyTime`: the seconds of all recorded sessions; no negative session, no negative total. */
  function TotalStudyTime(sessions: seq<StudySession>): (r: int)
    ensures (forall i :: 0 <= i < |sessions| ==> sessions[i].duration >= 0) ==> r >= 0
  {
    SumNonNegative(sessions, SessionDuration());
    Sum(sessions, SessionDuration())
  }

  /**
   * The goal bar: `min(total / weeklyGoal * 100, 100)`; it lies in [0, 100] for a
   * non-negative total and is full exactly when the total reaches twenty hours.
   */
  function ProgressValue(total: int): (r: real)
    ensures total >= 0 ==> 0.0 <= r <= 100.0
    ensures r == 100.0 <==> total >= WeeklyGoal
    ensures total < WeeklyGoal ==> r < 100.0
  {
    var percentage := total as real / WeeklyGoal as real * 100.0;
    if percentage < 100.0 then percentage else 100.0
  }

  function StatusIs(status: BookStatus): Book -> bool
  {
    (b: Book) => b.status == status
  }

  /** `getBooksByStatus`: one shelf, holding exactly the library's books with that status. */
  function BooksByStatus(books: seq<Book>, status: BookStatus): (r: seq<Book>)
    ensures forall i :: 0 <= i < |r| ==> r[i] in books && r[i].status == status
    ensures forall i :: 0 <= i < |books| && books[i].status == status ==> books[i] in r
  {
    Filter(books, StatusIs(status))
  }

  /** Every book sits on exactly one of the three shelves. */
  lemma {:induction false} ShelvesPartitionLibrary(books: seq<Book>)
    ensures |BooksByStatus(books, Lendo)| + |BooksByStatus(books, Lido)| + |BooksByStatus(books, QueroLer)| == |books|
  {
    if books != [] {
      ShelvesPartitionLibrary(books[1..]);
    }
  }

  function HasId(id: string): Book -> bool
  {
    (b: Book) => b.id == id
  }

  function NotId(id: string): Book -> bool
  {
    (b: Book) => b.id != id
  }

  function WithStatus(status: BookStatus): Book -> Book
  {
    (b: Book) => b.(status := status)
  }

  /** `deleteBook`'s new list: every book with `id` is gone, every other one stays. */
  function WithoutBook(books: seq<Book>, id: string): (r: seq<Book>)
    ensures forall i :: 0 <= i < |r| ==> r[i].id != id && r[i] in books
    ensures forall i :: 0 <= i < |books| && books[i].id != id ==> books[i] in r
  {
    Filter(books, NotId(id))
  }

  /**
   * `updateBookStatus`'s new list. Moving a book changes only the status of the books
   * with that id: titles, authors and order stay, and the moved books land on the
   * target shelf.
   */
  function WithBookStatus(books: seq<Book>, id: string, status: BookStatus): (r: seq<Book>)
    ensures |r| == |books|
    ensures forall i :: 0 <= i < |r| ==> r[i].id == books[i].id && r[i].title == books[i].title && r[i].author == books[i].author
    ensures forall i :: 0 <= i < |r| ==> r[i].status == if books[i].id == id then status else books[i].status
  {
    Update(books, HasId(id), WithStatus(status))
  }

  /** Moving a book to a shelf and back to where it was restores the library. */
  lemma MoveBookBack(books: seq<Book>, id: string, status: BookStatus)
    requires forall i :: 0 <= i < |books| && books[i].id == id ==> books[i].status == status
    ensures WithBookStatus(WithBookStatus(books, id, Lido), id, status) == books
  {
    var r := WithBookStatus(WithBookStatus(books, id, Lido), id, status);
    assert |r| == |books|;
    forall i | 0 <= i < |books| ensures r[i] == books[i] {
    }
  }

  // ---------------------------------------------------------------- the component

  class EstudosIntelecto {
    var books: seq<Book>
    var studySessions: seq<StudySession>
    var newBook: BookForm
    var timerRunning: bool
    var timerSeconds: nat
    var currentSubject: string

    /**
     * A running stopwatch has a subject, and every recorded session lasted a positive
     * number of seconds on a subject with text.
     */
    ghost predicate Valid()
      reads this
    {
      && (timerRunning ==> HasText(currentSubject))
      && forall i :: 0 <= i < |studySessions| ==> studySessions[i].duration > 0 && HasText(studySessions[i].subject)
    }

    constructor ()
      ensures Valid()
      ensures books == [] && studySessions == [] && newBook == EmptyBookForm
      ensures !timerRunning && timerSeconds == 0 && currentSubject == ""
    {
      books := [];
      studySessions := [];
      newBook := EmptyBookForm;
      timerRunning := false;
      timerSeconds := 0;
      currentSubject := "";
    }

    /** One `setInterval` tick: a second more while the stopwatch runs. */
    method Tick()
      requires Valid()
      modifies this`timerSeconds
      ensures Valid()
      ensures timerSeconds == if timerRunning then old(timerSeconds) + 1 else old(timerSeconds)
    {
      if timerRunning {
        timerSeconds := timerSeconds + 1;
      }
    }

    /** The subject field; it is disabled while the stopwatch runs. */
    method SetCurrentSubject(value: string)
      requires Valid() && !timerRunning
      modifies this`currentSubject
      ensures Valid() && currentSubject == value
    {
      currentSubject := value;
    }

    /** `startTimer`: runs only with a subject that is more than whitespace. */
    method StartTimer()
      requires Valid()
      modifies this`timerRunning
      ensures Valid()
      ensures timerRunning == (old(timerRunning) || HasText(currentSubject))
    {
      if HasText(currentSubject) {
        timerRunning := true;
      }
    }

    /** `pauseTimer`: the elapsed seconds are kept. */
    method PauseTimer()
      requires Valid()
      modifies this`timerRunning
      ensures Valid() && !timerRunning
    {
      timerRunning := false;
    }

    /**
     * `stopTimer`: a run of at least one second on a subject with text becomes a
     * session dated `date` (the subject is stored as typed); the stopwatch is reset.
     */
    method StopTimer(id: string, date: string)
      requires Valid()
      modifies this`studySessions, this`timerRunning, this`timerSeconds, this`currentSubject
      ensures Valid()
      ensures studySessions == if old(timerSeconds) > 0 && HasText(old(currentSubject))
        then old(studySessions) + [StudySession(id, date, old(timerSeconds), old(currentSubject))]
        else old(studySessions)
      ensures !timerRunning && timerSeconds == 0 && currentSubject == ""
      ensures TotalStudyTime(studySessions) == TotalStudyTime(old(studySessions)) +
        if old(timerSeconds) > 0 && HasText(old(currentSubject)) then old(timerSeconds) else 0
    {
      if timerSeconds > 0 && HasText(currentSubject) {
        var session := StudySession(id, date, timerSeconds, currentSubject);
        SumAppend(studySessions, [session], SessionDuration());
        studySessions := studySessions + [session];
      }
      timerRunning := false;
      timerSeconds := 0;
      currentSubject := "";
    }

    /** Typing into the book dialog. */
    method SetNewBook(title: string, author: string)
      modifies this`newBook
      ensures newBook == BookForm(title, author)
    {
      newBook := BookForm(title, author);
    }

    /** `addBook`: with a title and an author the book is shelved under `id`; the dialog clears. */
    method AddBook(id: string)
      modifies this`books, this`newBook
      ensures var f := old(newBook);
        if f.title != "" && f.author != "" then
          books == old(books) + [Book(id, f.title, f.author, QueroLer)] && newBook == EmptyBookForm
        else
          books == old(books) && newBook == old(newBook)
    {
      if newBook.title != "" && newBook.author != "" {
        books := books + [Book(id, newBook.title, newBook.author, QueroLer)];
        newBook := EmptyBookForm;
      }
    }

    /** `deleteBook`. */
    method DeleteBook(id: string)
      modifies this`books
      ensures books == WithoutBook(old(books), id)
    {
      books := WithoutBook(books, id);
    }

    /** `updateBookStatus`: the "start reading" and "finished" buttons. */
    method UpdateBookStatus(id: string, status: BookStatus)
      modifies this`books
      ensures books == WithBookStatus(old(books), id, status)
    {
      books := WithBookStatus(books, id, status);
    }
  }

  /**
   * Studying a subject for `seconds` ticks and stopping records exactly that many seconds,
   * and the clock showed that time just before the stop.
   */
  method StudyRun(subject: string, seconds: nat, id: string, date: string) returns (sessions: seq<StudySession>, shown: string)
    requires HasText(subject) && seconds > 0
    ensures sessions == [StudySession(id, date, seconds, subject)]
    ensures ParseTime(shown) == Some(seconds)
  {
    var tab := new EstudosIntelecto();
    tab.SetCurrentSubject(subject);
    tab.StartTimer();
    var n := 0;
    while n < seconds
      invariant 0 <= n <= seconds
      invariant tab.Valid() && tab.timerRunning && tab.timerSeconds == n
      invariant tab.currentSubject == subject && tab.studySessions == []
    {
      tab.Tick();
      n := n + 1;
    }
    var elapsed := tab.timerSeconds;
    assert elapsed == seconds > 0 && HasText(tab.currentSubject);
    tab.StopTimer(id, date);
    assert tab.studySessions == [] + [StudySession(id, date, seconds, subject)];
    sessions := tab.studySessions;
    shown := FormatTime(elapsed);
    FormatTimeRoundTrip(elapsed);
  }

  /** A book added through the dialog lands on the "quero-ler" shelf, and on no other. */
  method ShelveNewBook(id: string, title: string, author: string) returns (wantToRead: seq<Book>, reading: seq<Book>, read: seq<Book>)
    requires title != "" && author != ""
    ensures wantToRead == [Book(id, title, author, QueroLer)]
    ensures reading == [] && read == []
  {
    var tab := new EstudosIntelecto();
    tab.SetNewBook(title, author);
    tab.AddBook(id);
    assert tab.books == [Book(id, title, author, QueroLer)];
    wantToRead := BooksByStatus(tab.books, QueroLer);
    reading := BooksByStatus(tab.books, Lendo);
    read := BooksByStatus(tab.books, Lido);
  }
}

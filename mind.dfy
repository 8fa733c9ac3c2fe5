/**
 * The mind and spirit tab: a guided-meditation player over a fixed catalogue, and three
 * journals (manifestations, a dream board and mood entries).
 */
module MenteEspirito {
  import opened Wrappers
  import opened Text

  datatype Meditation = Meditation(id: string, title: string, theme: string, duration: string, description: string, audioUrl: string)

  datatype Manifestation = Manifestation(id: string, date: string, text: string)

  datatype DreamBoardItem = DreamBoardItem(id: string, title: string, description: string)

  datatype Mood = Happy | Neutral | Sad

  datatype MoodEntry = MoodEntry(id: string, date: string, mood: Mood, note: string)

  datatype DreamForm = DreamForm(title: string, description: string)

  /** The mood picker: no mood until one of the three faces is chosen. */
  datatype MoodForm = MoodForm(mood: Option<Mood>, note: string)

  const EmptyDreamForm := DreamForm("", "")

  const EmptyMoodForm := MoodForm(None, "")

  const Meditations: seq<Meditation> := [
    Meditation("1", "Calma Interior", "Ansiedade", "10 min", "Meditação para acalmar a mente ansiosa",
      "https://www.soundhelix.com/examples/mp3/SoundHelix-Song-1.mp3"),
    Meditation("2", "Foco Total", "Concentração", "15 min", "Desenvolva foco e clareza mental",
      "https://www.soundhelix.com/examples/mp3/SoundHelix-Song-2.mp3"),
    Meditation("3", "Amor Próprio", "Autoestima", "12 min", "Cultive amor e aceitação por si mesmo",
      "https://www.soundhelix.com/examples/mp3/SoundHelix-Song-3.mp3"),
    Meditation("4", "Gratidão Diária", "Gratidão", "8 min", "Pratique gratidão e abundância",
      "https://www.soundhelix.com/examples/mp3/SoundHelix-Song-4.mp3"),
    Meditation("5", "Sono Profundo", "Relaxamento", "20 min", "Prepare-se para uma noite tranquila",
      "https://www.soundhelix.com/examples/mp3/SoundHelix-Song-5.mp3")
  ]

  /** The catalogue's meditations have different ids, so the player tells them apart. */
  lemma MeditationIdsDistinct()
    ensures forall i, j :: 0 <= i < j < |Meditations| ==> Meditations[i].id != Meditations[j].id
  {
  }

  // ---------------------------------------------------------------- the clock display

  /**
   * `formatTime`: whole minutes, unpadded, then ':' and the seconds padded to two digits,
   * so the display is always three characters longer than the minutes.
   */
  function FormatClock(time: nat): (r: string)
    ensures |r| == |Decimal(time / 60)| + 3
  {
    Decimal(time / 60) + ":" + TwoDigits(time % 60)
  }

  /** The seconds in `m` minutes and `s` seconds. */
  function MinutesSeconds(m: nat, s: nat): nat
  {
    m * 60 + s
  }

  /** Reads an "M:SS" display back. */
  function ParseClock(s: string): Option<nat>
  {
    var parts := Split(s, ':');
    if |parts| == 2 && AllDigits(parts[0]) && AllDigits(parts[1]) then
      Some(MinutesSeconds(ParseDigits(parts[0]), ParseDigits(parts[1])))
    else
      None
  }

  /** Two digit groups joined by ':' split back into the same two groups. */
  lemma SplitMinutes(m: string, s: string)
    requires AllDigits(m) && AllDigits(s)
    ensures Split(m + ":" + s, ':') == [m, s]
  {
    assert forall t: string :: AllDigits(t) ==> ':' !in t;
    assert m + ":" + s == m + [':'] + s;
    SplitAfterPiece(m, s, ':');
    SplitNoSeparator(s, ':');
  }

  /** Reading back the two groups gives the seconds they stand for. */
  lemma ParseMinuteGroups(mm: nat, ss: nat)
    ensures ParseClock(Decimal(mm) + ":" + TwoDigits(ss)) == Some(MinutesSeconds(mm, ss))
  {
    SplitMinutes(Decimal(mm), TwoDigits(ss));
    DecimalRoundTrip(mm);
    TwoDigitsRoundTrip(ss);
  }

  /** The player's clock loses nothing: reading it back gives the position in seconds. */
  lemma FormatClockRoundTrip(time: nat)
    ensures ParseClock(FormatClock(time)) == Some(time)
  {
    ParseMinuteGroups(time / 60, time % 60);
  }

  /**
   * The display's two fields: the whole minutes written unpadded, then the seconds left
   * over, below 60 and exactly two digits wide.
   */
  lemma FormatClockFields(time: nat)
    ensures var p := Split(FormatClock(time), ':');
      && |p| == 2 && p[0] == Decimal(time / 60) && ParseDigits(p[0]) == time / 60
      && AllDigits(p[1]) && |p[1]| == 2 && ParseDigits(p[1]) == time % 60 < 60
  {
    SplitMinutes(Decimal(time / 60), TwoDigits(time % 60));
    DecimalRoundTrip(time / 60);
    TwoDigitsRoundTrip(time % 60);
  }

  // ---------------------------------------------------------------- the component

  class MenteEspirito {
    var manifestations: seq<Manifestation>
    var dreamBoard: seq<DreamBoardItem>
    var moodEntries: seq<MoodEntry>
    var newManifestation: string
    var newDream: DreamForm
    var newMood: MoodForm
    var currentMeditation: Option<Meditation>
    var isPlaying: bool
    var currentTime: nat
    var duration: nat

    /** Something plays only once a meditation has been chosen. */
    ghost predicate Valid()
      reads this
    {
      isPlaying ==> currentMeditation.Some?
    }

    constructor ()
      ensures Valid()
      ensures manifestations == [] && dreamBoard == [] && moodEntries == []
      ensures newManifestation == "" && newDream == EmptyDreamForm && newMood == EmptyMoodForm
      ensures currentMeditation == None && !isPlaying && currentTime == 0 && duration == 0
    {
      manifestations := [];
      dreamBoard := [];
      moodEntries := [];
      newManifestation := "";
      newDream := EmptyDreamForm;
      newMood := EmptyMoodForm;
      currentMeditation := None;
      isPlaying := false;
      currentTime := 0;
      duration := 0;
    }

    /**
     * `startMeditation`: on the meditation already chosen it pauses a playing one and
     * resumes a paused one, keeping the position; any other meditation becomes the
     * current one and plays from the start.
     */
    method StartMeditation(m: Meditation)
      requires Valid()
      modifies this`currentMeditation, this`isPlaying, this`currentTime
      ensures Valid()
      ensures var same := old(currentMeditation).Some? && old(currentMeditation).value.id == m.id;
        if same then
          isPlaying == !old(isPlaying) && currentMeditation == old(currentMeditation) && currentTime == old(currentTime)
        else
          currentMeditation == Some(m) && isPlaying && currentTime == 0
    {
      if currentMeditation.Some? && currentMeditation.value.id == m.id && isPlaying {
        isPlaying := false;
      } else if currentMeditation.Some? && currentMeditation.value.id == m.id && !isPlaying {
        isPlaying := true;
      } else {
        currentMeditation := Some(m);
        isPlaying := true;
        currentTime := 0;
      }
    }

    /** `togglePlayPause`: the player's button, shown while a meditation is chosen. */
    method TogglePlayPause(audioMounted: bool)
      requires Valid() && currentMeditation.Some?
      modifies this`isPlaying
      ensures Valid()
      ensures isPlaying == if audioMounted then !old(isPlaying) else old(isPlaying)
    {
      if audioMounted {
        isPlaying := !isPlaying;
      }
    }

    /** `handleEnded`: the audio finished; the player stops and rewinds. */
    method HandleEnded()
      requires Valid()
      modifies this`isPlaying, this`currentTime
      ensures Valid() && !isPlaying && currentTime == 0
    {
      isPlaying := false;
      currentTime := 0;
    }

    /** `handleTimeUpdate`: the audio element reports its position. */
    method HandleTimeUpdate(audioMounted: bool, position: nat)
      modifies this`currentTime
      ensures currentTime == if audioMounted then position else old(currentTime)
    {
      if audioMounted {
        currentTime := position;
      }
    }

    /** `handleLoadedMetadata`: the audio element reports the track's length. */
    method HandleLoadedMetadata(audioMounted: bool, length: nat)
      modifies this`duration
      ensures duration == if audioMounted then length else old(duration)
    {
      if audioMounted {
        duration := length;
      }
    }

    method SetNewManifestation(text: string)
      modifies this`newManifestation
      ensures newManifestation == text
    {
      newManifestation := text;
    }

    method SetNewDream(form: DreamForm)
      modifies this`newDream
      ensures newDream == form
    {
      newDream := form;
    }

    method SetNewMood(form: MoodForm)
      modifies this`newMood
      ensures newMood == form
    {
      newMood := form;
    }

    /**
     * `addManifestation`: a text that is not blank is journalled as typed, surrounding
     * spaces included, and the input clears.
     */
    method AddManifestation(id: string, date: string)
      modifies this`manifestations, this`newManifestation
      ensures if HasText(old(newManifestation)) then
          manifestations == old(manifestations) + [Manifestation(id, date, old(newManifestation))] && newManifestation == ""
        else
          manifestations == old(manifestations) && newManifestation == old(newManifestation)
    {
      if HasText(newManifestation) {
        manifestations := manifestations + [Manifestation(id, date, newManifestation)];
        newManifestation := "";
      }
    }

    /** `addDream`: a dream needs a title and a description. */
    method AddDream(id: string)
      modifies this`dreamBoard, this`newDream
      ensures var f := old(newDream);
        if f.title != "" && f.description != "" then
          dreamBoard == old(dreamBoard) + [DreamBoardItem(id, f.title, f.description)] && newDream == EmptyDreamForm
        else
          dreamBoard == old(dreamBoard) && newDream == old(newDream)
    {
      if newDream.title != "" && newDream.description != "" {
        dreamBoard := dreamBoard + [DreamBoardItem(id, newDream.title, newDream.description)];
        newDream := EmptyDreamForm;
      }
    }

    /** `addMoodEntry`: a chosen mood is recorded with its note; the picker resets to no mood. */
    method AddMoodEntry(id: string, date: string)
      modifies this`moodEntries, this`newMood
      ensures var f := old(newMood);
        if f.mood.Some? then
          moodEntries == old(moodEntries) + [MoodEntry(id, date, f.mood.value, f.note)] && newMood == EmptyMoodForm
        else
          moodEntries == old(moodEntries) && newMood == old(newMood)
    {
      if newMood.mood.Some? {
        moodEntries := moodEntries + [MoodEntry(id, date, newMood.mood.value, newMood.note)];
        newMood := EmptyMoodForm;
      }
    }
  }

  /**
   * Pressing a meditation's card three times: it starts from the beginning, then pauses
   * and then resumes, at the position it had reached.
   */
  method PressCardThrice(m: Meditation, reached: nat) returns (afterFirst: bool, afterSecond: bool, afterThird: bool, position: nat)
    ensures afterFirst && !afterSecond && afterThird
    ensures position == reached
  {
    var tab := new MenteEspirito();
    tab.StartMeditation(m);
    afterFirst := tab.isPlaying;
    tab.HandleTimeUpdate(true, reached);
    tab.StartMeditation(m);
    afterSecond := tab.isPlaying;
    tab.StartMeditation(m);
    afterThird := tab.isPlaying;
    position := tab.currentTime;
  }
}

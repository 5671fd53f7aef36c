/** The simulation page: a playback controller that replays a remote list of image
    files through the simulate endpoint, one file per timer tick, into a ten-point
    chart, looping over the list. */
module Dashboard {
  import opened Sequences
  import opened Records
  import opened ChartWindow

  /** The level above which the level card and chart switch to the alert colours. */
  const AlertLevel: real := 50.0

  const WaitingStatus := "En attente"

  /** Whether the level card, its warning line and the chart's colours use the alert
      styling: strictly above 50. */
  predicate AlertStyling(level: real)
  {
    level > AlertLevel
  }

  /** The cursor after a successful tick: one step on, wrapping to the first file. */
  function NextIndex(index: nat, count: nat): (next: nat)
    requires count > 0
    ensures next < count
    ensures index + 1 < count ==> next == index + 1
    ensures index + 1 == count ==> next == 0
  {
    (index + 1) % count
  }

  class Simulation {
    var isPlaying: bool
    var files: seq<string>
    var currentIndex: nat
    var currentImage: Option<string>
    var currentLevel: real
    var currentStatus: string
    var llmReport: string
    var chartData: seq<ChartPoint>

    /** The cursor points into the list whenever the list is non-empty (and rests at 0
        before it arrives), and the chart holds at most ten points. */
    ghost predicate Valid()
      reads this
    {
      && (files == [] ==> currentIndex == 0)
      && (files != [] ==> currentIndex < |files|)
      && |chartData| <= Capacity
    }

    /** The interval that drives `AnalyzeNextImage` runs only in this state, and then
        the cursor of a valid controller points at a file of the list. */
    predicate TickEnabled(): (enabled: bool)
      reads this
      ensures enabled && Valid() ==> currentIndex < |files|
    {
      isPlaying && |files| > 0
    }

    constructor ()
      ensures Valid()
      ensures !isPlaying && files == [] && currentIndex == 0
      ensures currentImage.None? && currentLevel == 0.0 && currentStatus == WaitingStatus
      ensures llmReport == "" && chartData == []
    {
      isPlaying := false;
      files := [];
      currentIndex := 0;
      currentImage := None;
      currentLevel := 0.0;
      currentStatus := WaitingStatus;
      llmReport := "";
      chartData := [];
    }

    /** The mount effect: the file list replaces the initial empty list when the
        listing call answers with an array, and nothing changes otherwise. */
    method LoadFiles(listing: Option<seq<string>>)
      requires Valid() && files == []
      modifies this
      ensures Valid()
      ensures files == if listing.Some? then listing.value else []
      ensures currentIndex == 0 && isPlaying == old(isPlaying) && chartData == old(chartData)
      ensures currentImage == old(currentImage) && currentLevel == old(currentLevel)
      ensures currentStatus == old(currentStatus) && llmReport == old(llmReport)
    {
      if listing.Some? {
        files := listing.value;
      }
    }

    /** `toggleSimulation`: flips play/pause and nothing else. */
    method ToggleSimulation()
      requires Valid()
      modifies this`isPlaying
      ensures Valid()
      ensures isPlaying == !old(isPlaying)
    {
      isPlaying := !isPlaying;
    }

    /** `analyzeNextImage`: with the cursor past the list, playback stops and nothing
        else changes; otherwise the file under the cursor is requested, and a usable
        reply updates the display, slides the chart and advances the cursor, while a
        failed exchange changes nothing. `requested` is the file asked for. */
    method AnalyzeNextImage(reply: SimReply, time: string) returns (requested: Option<string>)
      requires Valid()
      modifies this
      ensures Valid()
      ensures files == old(files)
      ensures old(currentIndex) >= |files| ==>
        && requested.None? && !isPlaying
        && currentIndex == old(currentIndex) && chartData == old(chartData)
        && currentImage == old(currentImage) && currentLevel == old(currentLevel)
        && currentStatus == old(currentStatus) && llmReport == old(llmReport)
      ensures old(currentIndex) < |files| ==> requested == Some(files[old(currentIndex)]) && isPlaying == old(isPlaying)
      ensures old(currentIndex) < |files| && reply.Frame? ==>
        && chartData == Slide(old(chartData), ChartPoint(time, reply.level))
        && currentIndex == NextIndex(old(currentIndex), |files|)
        && currentImage == Some(reply.image) && currentLevel == reply.level
        && currentStatus == reply.status
        && llmReport == if reply.rapport != "" then reply.rapport else old(llmReport)
      ensures old(currentIndex) < |files| && reply.FetchFailure? ==>
        && currentIndex == old(currentIndex) && chartData == old(chartData)
        && currentImage == old(currentImage) && currentLevel == old(currentLevel)
        && currentStatus == old(currentStatus) && llmReport == old(llmReport)
    {
      if currentIndex >= |files| {
        isPlaying := false;
        return None;
      }
      requested := Some(files[currentIndex]);
      match reply {
        case Frame(image, level, status, rapport) =>
          currentImage := Some(image);
          currentLevel := level;
          currentStatus := status;
          if rapport != "" {
            llmReport := rapport;
          }
          SlideShape(chartData, ChartPoint(time, level));
          chartData := Slide(chartData, ChartPoint(time, level));
          currentIndex := NextIndex(currentIndex, |files|);
        case FetchFailure =>
      }
    }

    /** One firing of the interval. It fires only while playing with a non-empty list,
        and then the cursor is always inside the list, so a tick never takes the
        "end of list" branch and never stops playback. */
    method Tick(reply: SimReply, time: string) returns (requested: Option<string>)
      requires Valid()
      modifies this
      ensures Valid() && files == old(files)
      ensures !old(TickEnabled()) ==> requested.None? && unchanged(this)
      ensures old(TickEnabled()) ==> isPlaying && requested == Some(old(files[currentIndex]))
      ensures old(TickEnabled()) && reply.Frame? ==>
        && chartData == Slide(old(chartData), ChartPoint(time, reply.level))
        && currentIndex == NextIndex(old(currentIndex), |files|)
        && currentImage == Some(reply.image) && currentLevel == reply.level
        && currentStatus == reply.status
        && llmReport == if reply.rapport != "" then reply.rapport else old(llmReport)
      ensures old(TickEnabled()) && reply.FetchFailure? ==>
        && currentIndex == old(currentIndex) && chartData == old(chartData)
        && currentImage == old(currentImage) && currentLevel == old(currentLevel)
        && currentStatus == old(currentStatus) && llmReport == old(llmReport)
    {
      requested := None;
      if isPlaying && |files| > 0 {
        requested := AnalyzeNextImage(reply, time);
      }
    }
  }

  /** Two files answered with levels 25 (flood) and 10 (normal): one full cycle of
      ticks requests both files in order, charts both points in order and brings the
      cursor back to the first file, still playing. */
  method TwoFileCycle() returns (fetched: seq<Option<string>>, chart: seq<ChartPoint>, cursor: nat, playing: bool)
    ensures fetched == [Some("a.jpg"), Some("b.jpg")]
    ensures chart == [ChartPoint("t1", 25.0), ChartPoint("t2", 10.0)]
    ensures cursor == 0 && playing
  {
    var sim := new Simulation();
    sim.LoadFiles(Some(["a.jpg", "b.jpg"]));
    sim.ToggleSimulation();
    var first := sim.Tick(Frame("img-a", 25.0, "Inondation", ""), "t1");
    var second := sim.Tick(Frame("img-b", 10.0, "Normal", ""), "t2");
    assert [] + [ChartPoint("t1", 25.0)] == [ChartPoint("t1", 25.0)];
    fetched := [first, second];
    chart, cursor, playing := sim.chartData, sim.currentIndex, sim.isPlaying;
  }
}

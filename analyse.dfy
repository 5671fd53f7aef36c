/** The analysis page: an append-only buffer of analysed images for the session in
    progress, the latest report, the session start time, and the step that archives
    the session and starts a new one. */
module Analyse {
  import opened Sequences
  import opened Records
  import opened Historique

  const NoDataAlert := "Aucune donnée."
  const ArchivedAlert := "Session archivée !"
  const ServerErrorPrefix := "Erreur Serveur: "
  const ConnectionAlert := "Connexion impossible au serveur Flask. Vérifiez qu'il est lancé."

  /** What the user is told after an analysis attempt: nothing on success, the
      service's own message on a reported error, a fixed text when no usable reply came. */
  function AnalysisAlert(reply: Prediction): (alert: Option<string>)
    ensures alert.None? <==> reply.Ok?
    ensures reply.ServiceError? ==> alert == Some(ServerErrorPrefix + reply.message)
    ensures reply.ConnectionFailure? ==> alert == Some(ConnectionAlert)
  {
    match reply
    case Ok(_, _, _) => None
    case ServiceError(message) => Some(ServerErrorPrefix + message)
    case ConnectionFailure => Some(ConnectionAlert)
  }

  /** The archive step stores a session with no threshold of its own, so the archive
      gallery judges every point of it against the default threshold of 20. */
  lemma ArchivedPointsUseDefault(id: int, name: string, start: string, end: string,
                                 data: seq<Observation>, point: Observation)
    ensures IsOverThreshold(point, Session(id, name, start, end, data, None)) <==> point.level > 20.0
  {
  }

  /** Deleting a just-archived session by its id, when no older archive shares that
      id, gives back the archive list as it was before archiving. */
  lemma DeleteUndoesArchive(archives: seq<Session>, id: int, name: string, start: string, end: string,
                            data: seq<Observation>)
    requires forall a :: a in archives ==> a.id != id
    ensures WithoutId([Session(id, name, start, end, data, None)] + archives, id) == archives
  {
    var record := Session(id, name, start, end, data, None);
    assert ([record] + archives)[1..] == archives;
    DeleteAbsent(archives, id);
  }

  /** The state of the analysis page. `chartData` and `sessionStartTime` are mirrored
      to the `oued_chart_v2` and `oued_session_start` storage keys after every change. */
  class AnalysisPage {
    var chartData: seq<Observation>
    var sessionStartTime: string
    var llmReport: string

    /** Mount: restore the stored buffer and start time; a missing or empty stored
        start time is replaced by the current time. */
    constructor (savedChart: Option<seq<Observation>>, savedStart: Option<string>, now: string)
      ensures chartData == if savedChart.Some? then savedChart.value else []
      ensures sessionStartTime == if savedStart.Some? && savedStart.value != "" then savedStart.value else now
      ensures llmReport == ""
    {
      chartData := if savedChart.Some? then savedChart.value else [];
      sessionStartTime := if savedStart.Some? && savedStart.value != "" then savedStart.value else now;
      llmReport := "";
    }

    /** `lastAnalysis`: the most recent point, absent while the buffer is empty. */
    function LastAnalysis(): (last: Option<Observation>)
      reads this
      ensures last.None? <==> chartData == []
      ensures last.Some? ==> last.value in chartData && chartData == chartData[..|chartData| - 1] + [last.value]
    {
      if |chartData| == 0 then None else Some(chartData[|chartData| - 1])
    }

    /** `processImage`: a successful reply appends one point and shows its report; a
        reported error or a failed exchange changes nothing. `time` is the clock
        reading taken when the reply arrives. */
    method ProcessImage(preview: string, reply: Prediction, time: string) returns (alert: Option<string>)
      modifies this
      ensures alert == AnalysisAlert(reply)
      ensures sessionStartTime == old(sessionStartTime)
      ensures reply.Ok? ==>
        var point := Observation(time, reply.level, reply.status, preview, reply.rapport);
        && chartData == old(chartData) + [point]
        && llmReport == reply.rapport
        && LastAnalysis() == Some(point)
      ensures !reply.Ok? ==> chartData == old(chartData) && llmReport == old(llmReport)
    {
      match reply {
        case Ok(level, status, rapport) =>
          var point := Observation(time, level, status, preview, rapport);
          chartData := chartData + [point];
          llmReport := rapport;
        case ServiceError(_) =>
        case ConnectionFailure =>
      }
      alert := AnalysisAlert(reply);
    }

    /** `handleImageUpload`: nothing happens without a file; otherwise a new start
        time is taken when the buffer is still empty, and the image is analysed once
        the file reader delivers its preview. `preview` is what the reader delivers:
        `None` when it never loads, in which case only the start time may change. */
    method HandleImageUpload(file: Option<string>, now: string, preview: Option<string>,
                             reply: Prediction, time: string)
      returns (alert: Option<string>)
      modifies this
      ensures file.None? ==> alert.None? && unchanged(this)
      ensures file.Some? ==> sessionStartTime == if old(chartData) == [] then now else old(sessionStartTime)
      ensures file.Some? && preview.None? ==>
        alert.None? && chartData == old(chartData) && llmReport == old(llmReport)
      ensures file.Some? && preview.Some? ==> alert == AnalysisAlert(reply)
      ensures file.Some? && preview.Some? && reply.Ok? ==>
        && chartData == old(chartData) + [Observation(time, reply.level, reply.status, preview.value, reply.rapport)]
        && llmReport == reply.rapport
      ensures file.Some? && preview.Some? && !reply.Ok? ==> chartData == old(chartData) && llmReport == old(llmReport)
    {
      if file.None? {
        return None;
      }
      if |chartData| == 0 {
        sessionStartTime := now;
      }
      alert := None;
      if preview.Some? {
        alert := ProcessImage(preview.value, reply, time);
      }
    }

    /** `handleArchiveAndReset`: an empty buffer is refused before any name is asked
        for; a cancelled or empty name changes nothing; otherwise the session is
        prepended to the stored archives and a new, empty session begins. `endTime`
        and `resetTime` are the two clock readings the step takes, `id` the identifier
        it derives from the clock. */
    method HandleArchiveAndReset(store: ArchiveStore, ouedName: Option<string>, id: int,
                                 endTime: string, resetTime: string)
      returns (alert: Option<string>)
      modifies this, store
      ensures old(chartData) == [] ==> alert == Some(NoDataAlert) && unchanged(this) && unchanged(store)
      ensures old(chartData) != [] && (ouedName.None? || ouedName.value == "") ==>
        alert.None? && unchanged(this) && unchanged(store)
      ensures old(chartData) != [] && ouedName.Some? && ouedName.value != "" ==>
        && alert == Some(ArchivedAlert)
        && store.archives == [Session(id, ouedName.value, old(sessionStartTime), endTime, old(chartData), None)]
                             + old(store.archives)
        && chartData == []
        && llmReport == ""
        && sessionStartTime == resetTime
    {
      if |chartData| == 0 {
        return Some(NoDataAlert);
      }
      alert := None;
      if ouedName.Some? && ouedName.value != "" {
        var archive := Session(id, ouedName.value, sessionStartTime, endTime, chartData, None);
        store.archives := [archive] + store.archives;
        chartData := [];
        llmReport := "";
        sessionStartTime := resetTime;
        alert := Some(ArchivedAlert);
      }
    }
  }
}

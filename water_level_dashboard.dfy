/** The upload panel: a ten-point chart of uploaded images' levels, the current level,
    its status badge and a locally generated report. */
module WaterLevelDashboard {
  import opened Sequences
  import opened Records
  import opened ChartWindow

  /** The level above which the panel reports a flood risk. */
  const CriticalLevel: real := 20.0

  const AlertPrefix := "ALERTE CRUE : "
  const NormalPrefix := "SITUATION NORMALE : "
  const CriticalLabel := "RISQUE CRITIQUE"
  const NormalLabel := "ÉTAT NORMAL"
  const ConnectionAlert := "Erreur: Le serveur Flask est-il bien allumé ?"

  /** The flood threshold of the upload panel's report, badge and icon. */
  predicate IsCritical(level: real)
  {
    level > CriticalLevel
  }

  /** A report is an alert when it opens with the alert heading. */
  predicate IsAlertReport(report: string)
  {
    AlertPrefix <= report
  }

  /** `genererRapportSimple`: the alert text above 20, the normal text otherwise (20
      itself is normal). `shown` is the level as the page prints it. */
  function GenererRapportSimple(level: real, shown: string): (report: string)
    ensures IsAlertReport(report) <==> IsCritical(level)
    ensures !IsCritical(level) ==> NormalPrefix <= report
  {
    if level > CriticalLevel then
      AlertPrefix + "Le niveau de l'oued a atteint " + shown
      + "%. Risque d'inondation détecté. Les autorités locales ont été prévenues via Syslog 514."
    else
      var r := NormalPrefix + "Le niveau est de " + shown + "%. Aucune menace immédiate détectée par l'IA.";
      assert r[0] != AlertPrefix[0];
      r
  }

  /** The status badge's caption. */
  function StatusLabel(level: real): (caption: string)
    ensures caption == CriticalLabel <==> IsCritical(level)
  {
    if level > CriticalLevel then CriticalLabel else NormalLabel
  }

  class UploadPanel {
    var chartData: seq<ChartPoint>
    var currentLevel: real
    var report: string

    /** The chart is never empty and never holds more than ten points, and once a
        report exists it agrees with the status badge. */
    ghost predicate Valid()
      reads this
    {
      && 1 <= |chartData| <= Capacity
      && (report != "" ==> (IsAlertReport(report) <==> IsCritical(currentLevel)))
    }

    /** The panel starts with the single point ("Initial", 0), level 0 and no report. */
    constructor ()
      ensures Valid()
      ensures chartData == [ChartPoint("Initial", 0.0)] && currentLevel == 0.0 && report == ""
    {
      chartData := [ChartPoint("Initial", 0.0)];
      currentLevel := 0.0;
      report := "";
    }

    /** `handleImageUpload`: without a file nothing happens; a usable reply slides the
        chart, sets the current level and regenerates the report; anything else
        (including a service error, assumed to carry no numeric level) only raises the alert. */
    method HandleImageUpload(file: bool, reply: Prediction, time: string, shown: string)
      returns (alert: Option<string>)
      requires Valid()
      modifies this
      ensures Valid()
      ensures !file ==> alert.None? && unchanged(this)
      ensures file && reply.Ok? ==>
        && alert.None?
        && chartData == ShiftIn(old(chartData), ChartPoint(time, reply.level))
        && |chartData| == (if |old(chartData)| + 1 <= Capacity then |old(chartData)| + 1 else Capacity)
        && chartData[|chartData| - 1] == ChartPoint(time, reply.level)
        && currentLevel == reply.level
        && report == GenererRapportSimple(reply.level, shown)
        && (IsAlertReport(report) <==> StatusLabel(currentLevel) == CriticalLabel)
      ensures file && !reply.Ok? ==> alert == Some(ConnectionAlert) && unchanged(this)
    {
      if !file {
        return None;
      }
      match reply {
        case Ok(level, _, _) =>
          var point := ChartPoint(time, level);
          SlideShape(chartData, point);
          chartData := ShiftIn(chartData, point);
          currentLevel := level;
          report := GenererRapportSimple(level, shown);
          alert := None;
        case ServiceError(_) =>
          alert := Some(ConnectionAlert);
        case ConnectionFailure =>
          alert := Some(ConnectionAlert);
      }
    }
  }
}

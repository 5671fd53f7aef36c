/** The values the pages exchange: observation points, archived sessions and the
    replies of the inference service. Clock strings, image previews and report
    texts are opaque strings; a level is a real percentage. */
module Records {
  import opened Sequences

  /** One analysed image on the analysis page: display time, level, the status the
      service gave, the image preview and the service's report ("" when absent). */
  datatype Observation = Observation(time: string, level: real, status: string, img: string, report: string)

  /** One point of the two live charts that only plot a level over time. */
  datatype ChartPoint = ChartPoint(time: string, level: real)

  /** An archived session as stored under `oued_archives`. `finalThreshold` is read
      by the archive gallery; the analysis page never sets it. */
  datatype Session = Session(
    id: int,
    name: string,
    start: string,
    end: string,
    data: seq<Observation>,
    finalThreshold: Option<real>)

  /** What one exchange with the `/predict` endpoint yields. `ServiceError` is a body
      whose `error` field is a non-empty text: the pages test that field for
      truthiness, so a body with an empty `error` goes down the `level` path and is an
      `Ok` or a `ConnectionFailure` here. `ConnectionFailure` stands for every path
      into the caller's `catch`: the service is unreachable, the body is not JSON, or
      it has no numeric `level`. */
  datatype Prediction =
    | Ok(level: real, status: string, rapport: string)
    | ServiceError(message: string)
    | ConnectionFailure

  /** What one exchange with `/api/simulate/<file>` yields. */
  datatype SimReply =
    | Frame(image: string, level: real, status: string, rapport: string)
    | FetchFailure
}

/** The three live-stream tools. They keep no session table: a stream id is
    drawn when a stream starts and is only echoed afterwards, so any id can
    be polled or stopped, any number of times. The drawn id (a uuid4), the
    poll's timestamp and its drawn frame number are inputs. */
module LiveStreaming {
  import opened Envelopes

  const DefaultStreamType := "camera"
  const DefaultFrameRate := 10.0
  const DefaultDuration := 60.0

  /** Side of the square frame each poll returns. */
  const FrameSide := 256

  /** `start_live_stream`: succeeds for every argument, non-positive rates
      and durations included, and echoes the stream's settings with status
      "started". */
  function StartLiveStream(streamId: string, streamType: Option<string>,
                           frameRate: Option<real>, duration: Option<real>): (e: Envelope)
    ensures Succeeded(e)
    ensures Has(e, "stream_id", Str(streamId)) && Has(e, "status", Str("started"))
    ensures streamType.None? ==> Has(e, "stream_type", Str("camera"))
    ensures streamType.Some? ==> Has(e, "stream_type", Str(streamType.value))
    ensures frameRate.None? ==> Has(e, "frame_rate", Float(10.0))
    ensures frameRate.Some? ==> Has(e, "frame_rate", Float(frameRate.value))
    ensures duration.None? ==> Has(e, "duration", Float(60.0))
    ensures duration.Some? ==> Has(e, "duration", Float(duration.value))
    ensures Has(e, "message",
      Str("Live " + streamType.GetOr(DefaultStreamType) + " stream started with ID " + streamId))
  {
    var kind := streamType.GetOr(DefaultStreamType);
    map[
      "success" := Bool(true),
      "stream_id" := Str(streamId),
      "stream_type" := Str(kind),
      "frame_rate" := Float(frameRate.GetOr(DefaultFrameRate)),
      "duration" := Float(duration.GetOr(DefaultDuration)),
      "status" := Str("started"),
      "message" := Str("Live " + kind + " stream started with ID " + streamId)]
  }

  /** `get_stream_frame`: succeeds for every id, started, stopped or never
      seen, with a 256 x 256 frame. */
  function GetStreamFrame(streamId: string, timestamp: real, frameNumber: int): (e: Envelope)
    ensures Succeeded(e)
    ensures Has(e, "stream_id", Str(streamId))
    ensures Has(e, "width", Int(256)) && Has(e, "height", Int(256))
    ensures Has(e, "frame_number", Int(frameNumber)) && Has(e, "timestamp", Float(timestamp))
  {
    map[
      "success" := Bool(true),
      "stream_id" := Str(streamId),
      "timestamp" := Float(timestamp),
      "frame_number" := Int(frameNumber),
      "width" := Int(FrameSide),
      "height" := Int(FrameSide)]
  }

  /** `stop_stream`: succeeds with status "stopped" for every id, so a
      second stop of the same stream succeeds too. */
  function StopStream(streamId: string): (e: Envelope)
    ensures Succeeded(e)
    ensures Has(e, "stream_id", Str(streamId)) && Has(e, "status", Str("stopped"))
    ensures Has(e, "message", Str("Stream " + streamId + " stopped successfully"))
  {
    map[
      "success" := Bool(true),
      "stream_id" := Str(streamId),
      "status" := Str("stopped"),
      "message" := Str("Stream " + streamId + " stopped successfully")]
  }
}

// The MQTT topic contract shared by publisher and subscriber.
module Topic {
  import opened Wrappers
  import opened Text

  const PREFIX := "transformers"
  const SUFFIX := "telemetry"

  function TelemetryTopicFor(id: string): string
  {
    PREFIX + "/" + id + "/telemetry"
  }

  function ParseTelemetryTopic(topic: string): Option<string>
  {
    var parts := Split(topic, '/');
    if |parts| != 3 then None
    else if parts[0] != PREFIX || parts[2] != SUFFIX then None
    else if parts[1] == "" then None
    else Some(parts[1])
  }

  /** A single-level wildcard filter, level by level (section 4.7.1.3 of MQTT 3.1.1). */
  predicate Matches(filter: seq<string>, topic: seq<string>)
  {
    |filter| == |topic| &&
    forall i :: 0 <= i < |filter| ==> filter[i] == "+" || filter[i] == topic[i]
  }

  const SUBSCRIBE_FILTER := PREFIX + "/+/telemetry"

  lemma TopicParts(id: string)
    requires '/' !in id
    ensures Split(TelemetryTopicFor(id), '/') == [PREFIX, id, SUFFIX]
  {
    var parts := [PREFIX, id, SUFFIX];
    SplitJoin(parts, '/');
    assert parts[1..] == [id, SUFFIX] && parts[1..][1..] == [SUFFIX];
    assert Join(parts[1..], '/') == id + ['/'] + SUFFIX;
    assert Join(parts, '/') == PREFIX + ['/'] + (id + ['/'] + SUFFIX);
    assert Join(parts, '/') == TelemetryTopicFor(id);
  }

  /** Parsing accepts exactly the topics that publishing to a slash-free, non-empty id produces. */
  lemma ParseIffPublished(topic: string, id: string)
    ensures ParseTelemetryTopic(topic) == Some(id) <==>
            topic == TelemetryTopicFor(id) && id != "" && '/' !in id
    ensures TelemetryTopicFor(id) == "transformers/" + id + "/telemetry"
  {
    assert PREFIX + "/" == "transformers/";
    if ParseTelemetryTopic(topic) == Some(id) {
      JoinSplit(topic, '/');
      SplitHasNoSeparator(topic, '/');
      var parts := Split(topic, '/');
      assert parts == [PREFIX, id, SUFFIX];
      TopicParts(id);
      JoinSplit(TelemetryTopicFor(id), '/');
    }
    if topic == TelemetryTopicFor(id) && id != "" && '/' !in id {
      TopicParts(id);
    }
  }

  /**
   * What the broker delivers under the subscribe filter is exactly what the
   * parser accepts, plus the topic with the empty id.
   */
  lemma FilterVersusParser(filter: string, topic: string, anonymous: string)
    requires filter == SUBSCRIBE_FILTER && anonymous == TelemetryTopicFor("")
    ensures filter == "transformers/+/telemetry"
    ensures Matches(Split(filter, '/'), Split(topic, '/')) <==>
            ParseTelemetryTopic(topic).Some? || topic == anonymous
  {
    var plus, empty := "+", "";
    assert filter == "transformers" + "/+/telemetry" == "transformers/+/telemetry";
    assert filter == TelemetryTopicFor(plus);
    TopicParts(plus);
    TopicParts(empty);
    var levels, parts := Split(filter, '/'), Split(topic, '/');
    JoinSplit(topic, '/');
    JoinSplit(anonymous, '/');
    assert |PREFIX| == 12 && |SUFFIX| == 9;
    if Matches(levels, parts) {
      assert levels[0] == PREFIX && levels[2] == SUFFIX;
      assert parts == [PREFIX, parts[1], SUFFIX];
    }
  }
}

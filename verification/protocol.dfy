/** The research-session protocol end to end: the start envelope the browser client
    builds (frontend/nextjs/hooks/useWebSocket.ts) as the backend reads it
    (backend/server/server_utils.py). */
module Protocol {
  import opened Wrappers
  import opened Json
  import Text
  import Py
  import UseWebSocket
  import ServerUtils

  /** The command the backend extracts from a client envelope: every field the client
      sends, and None for the `source_urls` it never sends. */
  function ClientCommand(prompt: string, settings: UseWebSocket.Settings, headers: Json): ServerUtils.Command
  {
    ServerUtils.Command(JStr(prompt), JStr(settings.reportType), JNull, JStr(settings.tone), headers,
                        JStr(settings.reportSource))
  }

  /** The backend classifies every client envelope as a start command. */
  lemma EnvelopeIsStart(prompt: string, settings: UseWebSocket.Settings, headers: Json)
    ensures ServerUtils.Classify(UseWebSocket.StartEnvelope(prompt, settings, headers)) == ServerUtils.StartKind
  {
    var envelope := UseWebSocket.StartEnvelope(prompt, settings, headers);
    UseWebSocket.StartEnvelopeRoundTrip(prompt, settings, headers);
    assert envelope[..5] == envelope[..6][..5];
  }

  /** Stripping the first six characters of the client's envelope leaves exactly the
      document the client encoded. */
  lemma EnvelopeDecodes(prompt: string, settings: UseWebSocket.Settings, headers: Json)
    ensures Decode(Text.Drop(UseWebSocket.StartEnvelope(prompt, settings, headers), 6))
              == Some(UseWebSocket.StartPayload(prompt, settings, headers))
  {
    UseWebSocket.StartEnvelopeRoundTrip(prompt, settings, headers);
  }

  /** The members the client sends, in order. */
  lemma PayloadKeys(prompt: string, settings: UseWebSocket.Settings, headers: Json)
    ensures var ms := UseWebSocket.StartPayload(prompt, settings, headers).members;
      && |ms| == 5
      && ms[0] == Member("task", JStr(prompt))
      && ms[1] == Member("report_type", JStr(settings.reportType))
      && ms[2] == Member("report_source", JStr(settings.reportSource))
      && ms[3] == Member("tone", JStr(settings.tone))
      && ms[4] == Member("headers", headers)
  {
  }

  /** Looking a key up in the client's payload. */
  lemma PayloadLookup(prompt: string, settings: UseWebSocket.Settings, headers: Json, i: nat)
    requires i < 5
    ensures var ms := UseWebSocket.StartPayload(prompt, settings, headers).members;
      Lookup(ms, ms[i].key) == Some(ms[i].value)
  {
    var ms := UseWebSocket.StartPayload(prompt, settings, headers).members;
    PayloadKeys(prompt, settings, headers);
    LookupUnique(ms, i);
  }

  /** The backend reads back every field the client sent. */
  lemma PayloadFields(prompt: string, settings: UseWebSocket.Settings, headers: Json)
    ensures ServerUtils.ExtractCommandData(UseWebSocket.StartPayload(prompt, settings, headers))
              == Some(ClientCommand(prompt, settings, headers))
  {
    var ms := UseWebSocket.StartPayload(prompt, settings, headers).members;
    assert Py.Get(ms, "task", JStr("")) == JStr(prompt) by {
      PayloadLookup(prompt, settings, headers, 0);
    }
    assert Py.Get(ms, "report_type", JStr("")) == JStr(settings.reportType) by {
      PayloadLookup(prompt, settings, headers, 1);
    }
    assert Py.Get(ms, "report_source", JNull) == JStr(settings.reportSource) by {
      PayloadLookup(prompt, settings, headers, 2);
    }
    assert Py.Get(ms, "tone", JNull) == JStr(settings.tone) by {
      PayloadLookup(prompt, settings, headers, 3);
    }
    assert Py.Get(ms, "headers", JObj([])) == headers by {
      PayloadLookup(prompt, settings, headers, 4);
    }
    assert Py.Get(ms, "source_urls", JNull) == JNull by {
      NoSourceUrls(prompt, settings, headers);
    }
  }

  /** The client never sends `source_urls`. */
  lemma NoSourceUrls(prompt: string, settings: UseWebSocket.Settings, headers: Json)
    ensures Lookup(UseWebSocket.StartPayload(prompt, settings, headers).members, "source_urls") == None
  {
    var ms := UseWebSocket.StartPayload(prompt, settings, headers).members;
    PayloadKeys(prompt, settings, headers);
    var absent := "source_urls";
    assert absent[0] == 's';
    assert ms[0].key[0] == 't' && ms[1].key[0] == 'r' && ms[2].key[0] == 'r' && ms[3].key[0] == 't'
        && ms[4].key[0] == 'h';
  }

  /** The backend reads the client's envelope as the client's command. */
  lemma EnvelopeParsed(prompt: string, settings: UseWebSocket.Settings, headers: Json)
    ensures ServerUtils.ParsedStart(UseWebSocket.StartEnvelope(prompt, settings, headers))
              == Some(ClientCommand(prompt, settings, headers))
  {
    EnvelopeDecodes(prompt, settings, headers);
    PayloadFields(prompt, settings, headers);
  }

  /** An envelope with a prompt and a report type starts exactly one stream, of the
      client's command, before anything else. */
  lemma CompleteEnvelopeStreams(prompt: string, settings: UseWebSocket.Settings, headers: Json, now: nat,
                                io: ServerUtils.Io)
    requires prompt != "" && settings.reportType != ""
    ensures var effects := ServerUtils.Step(UseWebSocket.StartEnvelope(prompt, settings, headers), now, io);
      && effects.Some? && |effects.value| >= 2
      && effects.value[0] == ServerUtils.Stream(ClientCommand(prompt, settings, headers))
      && ServerUtils.StreamedCommands(effects.value) == [ClientCommand(prompt, settings, headers)]
  {
    var envelope := UseWebSocket.StartEnvelope(prompt, settings, headers);
    EnvelopeIsStart(prompt, settings, headers);
    EnvelopeParsed(prompt, settings, headers);
    ServerUtils.CompleteStartStreams(envelope, now, ClientCommand(prompt, settings, headers), io);
  }

  /** An envelope without a prompt or a report type is answered with the error alone. */
  lemma IncompleteEnvelopeRejected(prompt: string, settings: UseWebSocket.Settings, headers: Json, now: nat,
                                   io: ServerUtils.Io)
    requires prompt == "" || settings.reportType == ""
    ensures ServerUtils.Step(UseWebSocket.StartEnvelope(prompt, settings, headers), now, io)
              == Some([ServerUtils.SendJson(ServerUtils.ErrorMessage("Missing task or report_type"))])
  {
    var envelope := UseWebSocket.StartEnvelope(prompt, settings, headers);
    EnvelopeIsStart(prompt, settings, headers);
    EnvelopeParsed(prompt, settings, headers);
    ServerUtils.MissingFieldsRejected(envelope, now, ClientCommand(prompt, settings, headers), io);
  }
}

/**
 * Match initiation on the consumer (`MatchInitServiceImpl`): the participants of the
 * data space are listed from the connector registry, one object per connector.
 */
module MatchInit {
  import opened Wrappers
  import opened Json
  import opened ConnectorRegistry

  /** The initiation form (`MatchInitRequest`). */
  datatype MatchInitRequest = MatchInitRequest(faceHash: Option<string>, fingerprintHash: Option<string>,
                                               voiceHash: Option<string>)

  /** `parseIncomingMatchInitRequest`: the face, fingerprint and voice hashes in those slots. */
  function ParseIncomingMatchInitRequest(faceHash: Option<string>, fingerprintHash: Option<string>,
                                         voiceHash: Option<string>): (r: MatchInitRequest)
    ensures r.faceHash == faceHash && r.fingerprintHash == fingerprintHash && r.voiceHash == voiceHash
  {
    MatchInitRequest(faceHash, fingerprintHash, voiceHash)
  }

  /** The object listed for one connector. */
  function Participant(connector: Connector): Json
  {
    JObj(map["ConnectorId" := JText(connector.id), "ConnectorIP" := JText(connector.ip), "Pod" := JText(connector.pod)])
  }

  /**
   * `getBrokerParticipants`: walks the registry's map in its own iteration order, which
   * is left open here, listing one object per connector with its id, address and pod.
   */
  method GetBrokerParticipants(registry: TensorConnectorRegistry) returns (participants: seq<Json>)
    ensures |participants| == |registry.connectors|
    ensures forall k | k in registry.connectors :: Participant(registry.connectors[k]) in participants
    ensures forall i | 0 <= i < |participants| ::
      exists k | k in registry.connectors :: participants[i] == Participant(registry.connectors[k])
  {
    var connectors := registry.GetAllConnectors();
    participants := [];
    var remaining := connectors.Keys;
    ghost var done: set<string> := {};
    while remaining != {}
      invariant done <= connectors.Keys && remaining == connectors.Keys - done
      invariant ListedSoFar(participants, done, connectors)
      decreases remaining
    {
      var key :| key in remaining;
      var obj := Participant(connectors[key]);
      ListedStep(participants, done, connectors, key);
      participants := participants + [obj];
      remaining := remaining - {key};
      done := done + {key};
    }
    assert done == connectors.Keys;
    ListedAll(participants, connectors);
  }

  /** Once every connector is visited, the list is one object per connector. */
  lemma ListedAll(participants: seq<Json>, connectors: map<string, Connector>)
    requires ListedSoFar(participants, connectors.Keys, connectors)
    ensures |participants| == |connectors|
    ensures forall k | k in connectors :: Participant(connectors[k]) in participants
    ensures forall i | 0 <= i < |participants| :: exists k | k in connectors :: participants[i] == Participant(connectors[k])
  {
    assert |connectors.Keys| == |connectors|;
  }

  /** The participants listed so far are exactly one object per connector of `done`. */
  ghost predicate ListedSoFar(participants: seq<Json>, done: set<string>, connectors: map<string, Connector>)
  {
    && |participants| == |done|
    && (forall k | k in done :: k in connectors && Participant(connectors[k]) in participants)
    && (forall i | 0 <= i < |participants| :: exists k | k in done :: k in connectors && participants[i] == Participant(connectors[k]))
  }

  /** Listing one more connector keeps the list one object per connector visited. */
  lemma ListedStep(participants: seq<Json>, done: set<string>, connectors: map<string, Connector>, key: string)
    requires ListedSoFar(participants, done, connectors) && key in connectors && key !in done
    ensures ListedSoFar(participants + [Participant(connectors[key])], done + {key}, connectors)
  {
    var after := participants + [Participant(connectors[key])];
    forall i | 0 <= i < |after|
      ensures exists k | k in done + {key} :: k in connectors && after[i] == Participant(connectors[k])
    {
      if i < |participants| {
        var k :| k in done && k in connectors && participants[i] == Participant(connectors[k]);
        assert after[i] == participants[i];
      } else {
        assert after[i] == Participant(connectors[key]);
      }
    }
    forall k | k in done + {key} ensures Participant(connectors[k]) in after {
      if k in done {
        assert Participant(connectors[k]) in participants;
      }
    }
  }

  /** `createMatchInit`: the participants with status 200; listing cannot raise, so the one-message error array is never sent. */
  method CreateMatchInit(registry: TensorConnectorRegistry) returns (reply: Reply)
    ensures reply.status == 200 && reply.body.JArr? && |reply.body.items| == |registry.connectors|
    ensures forall k | k in registry.connectors :: Participant(registry.connectors[k]) in reply.body.items
  {
    var response := GetBrokerParticipants(registry);
    return Reply(200, JArr(response));
  }
}

/**
 * The participant registry of the connector back end (`TENSORConnectorRegistry`): a
 * mutable map from connector id to the connector's addresses, with lookups that
 * answer null for an unknown id.
 */
module ConnectorRegistry {
  import opened Wrappers

  /** A registered participant; every field may be null. */
  datatype Connector = Connector(id: Option<string>, ip: Option<string>, pod: Option<string>,
                                 ethAddress: Option<string>, fuzzyExtractorFile: Option<string>,
                                 cmsAPI: Option<string>, solidAPI: Option<string>, dspAPI: Option<string>)

  /** The fields the projection getters return. */
  datatype Field = Ip | Pod | EthAddress | FuzzyExtractorFile | CmsApi | SolidApi | DspApi

  function FieldOf(c: Connector, f: Field): Option<string>
  {
    match f
    case Ip => c.ip
    case Pod => c.pod
    case EthAddress => c.ethAddress
    case FuzzyExtractorFile => c.fuzzyExtractorFile
    case CmsApi => c.cmsAPI
    case SolidApi => c.solidAPI
    case DspApi => c.dspAPI
  }

  class TensorConnectorRegistry {
    var connectors: map<string, Connector>

    /** Every connector is stored under its own id. */
    ghost predicate Valid()
      reads this
    {
      forall k | k in connectors :: connectors[k].id == Some(k)
    }

    constructor ()
      ensures Valid() && connectors == map[]
    {
      connectors := map[];
    }

    /** `addConnector`: stores a connector under its id, replacing any previous one; a null connector or id is ignored. */
    method AddConnector(tensorConnector: Option<Connector>)
      requires Valid()
      modifies this
      ensures Valid()
      ensures tensorConnector.Some? && tensorConnector.value.id.Some? ==>
        connectors == old(connectors)[tensorConnector.value.id.value := tensorConnector.value]
      ensures tensorConnector.None? || tensorConnector.value.id.None? ==> connectors == old(connectors)
      ensures forall id, f ::
        (Projection(id, f) == if tensorConnector.Some? && tensorConnector.value.id == Some(id)
                               then FieldOf(tensorConnector.value, f) else old(Projection(id, f)))
    {
      if tensorConnector.Some? && tensorConnector.value.id.Some? {
        connectors := connectors[tensorConnector.value.id.value := tensorConnector.value];
      }
    }

    /** `getConnectorById`: the connector registered under `id`, or null. */
    function GetConnectorById(id: string): (r: Option<Connector>)
      reads this
      ensures r.Some? <==> id in connectors
      ensures r.Some? ==> r.value == connectors[id]
    {
      if id in connectors then Some(connectors[id]) else None
    }

    /**
     * The projection getters (`getIPbyId`, `getPodById`, `getEthAddressById`,
     * `getFuzzyExtractorFileById`, `getCmsAPIById`, `getSolidAPIById`, `getDspAPIById`):
     * the registered connector's field, or null for an unknown id.
     */
    function Projection(id: string, f: Field): (r: Option<string>)
      reads this
      ensures id !in connectors ==> r.None?
      ensures id in connectors ==> r == FieldOf(connectors[id], f)
    {
      match GetConnectorById(id)
      case None => None
      case Some(connector) => FieldOf(connector, f)
    }

    /**
     * `getAllConnectors`: every registered connector under its id, agreeing with
     * `getConnectorById` on every id; in a valid registry each is keyed by its own id.
     */
    function GetAllConnectors(): (r: map<string, Connector>)
      reads this
      ensures forall id :: id in r <==> GetConnectorById(id).Some?
      ensures forall id | id in r :: GetConnectorById(id) == Some(r[id])
      ensures Valid() ==> forall id | id in r :: r[id].id == Some(id)
    {
      connectors
    }

    /**
     * `getIdByPod`: scans the connectors in the map's own iteration order, which is left
     * open here, and answers the id of the first whose pod equals `pod`, or null when none
     * does; a connector with a null pod met before a match raises NullPointerException.
     */
    method GetIdByPod(pod: Option<string>) returns (r: Result<Option<string>>)
      requires Valid()
      ensures r.Ok? && r.value.Some? ==> r.value.value in connectors && connectors[r.value.value].pod == pod && pod.Some?
      ensures r.Ok? && r.value.None? ==> forall k | k in connectors :: connectors[k].pod.Some? && connectors[k].pod != pod
      ensures r.Err? ==> exists k | k in connectors :: connectors[k].pod.None?
      ensures (forall k | k in connectors :: connectors[k].pod.Some?) ==>
        r.Ok? && (r.value.None? <==> forall k | k in connectors :: connectors[k].pod != pod)
    {
      var remaining := connectors.Keys;
      while remaining != {}
        invariant remaining <= connectors.Keys
        invariant forall k | k in connectors && k !in remaining :: connectors[k].pod.Some? && connectors[k].pod != pod
        decreases remaining
      {
        var k :| k in remaining;
        var c := connectors[k];
        if c.pod.None? {
          return Err("NullPointerException");
        }
        if c.pod == pod {
          return Ok(c.id);
        }
        remaining := remaining - {k};
      }
      return Ok(None);
    }
  }

  /** A lookup for a nullable id, as the services make it: `HashMap.get(null)` finds nothing, since no connector is stored under null. */
  function Lookup(registry: TensorConnectorRegistry, id: Option<string>, f: Field): (r: Option<string>)
    reads registry
    ensures id.None? ==> r.None?
    ensures id.Some? ==> r == registry.Projection(id.value, f)
  {
    if id.None? then None else registry.Projection(id.value, f)
  }
}

/** The identity of the Compute Engine instance the process runs on: taken
    from explicit configuration, or derived from the instance record the
    metadata server returns. */
module HostMetadata {
  import opened Text

  /** The transport's `_googleMetadata`: instance id, zone and region. */
  datatype HostContext = HostContext(id: string, zone: string, region: string)

  /** The part of the metadata server's instance record the transport reads:
      the numeric instance id and the zone path
      (`projects/<number>/zones/<zone>`). */
  datatype InstanceData = InstanceData(id: nat, zone: string)

  /** The zone of a zone path: its last `/`-separated segment. */
  function ParseZone(zonePath: string): (zone: string)
    ensures |zone| <= |zonePath| && zonePath[|zonePath| - |zone|..] == zone
    ensures '/' !in zone
    ensures |zone| < |zonePath| ==> zonePath[|zonePath| - |zone| - 1] == '/'
  {
    LastPieceIsSuffix(zonePath, '/');
    Last(Split(zonePath, '/'))
  }

  /** The region of a zone: the zone without its last two characters
      (`slice(0, -2)`), empty for a zone shorter than two. */
  function Region(zone: string): (region: string)
    ensures |region| == if |zone| >= 2 then |zone| - 2 else 0
    ensures region == zone[..|region|]
  {
    if |zone| >= 2 then zone[..|zone| - 2] else ""
  }

  /** The host context built from the metadata server's instance record. */
  function Discover(data: InstanceData): (h: HostContext)
    ensures |h.id| >= 1 && (h.id[0] == '0' ==> |h.id| == 1)
    ensures forall i :: 0 <= i < |h.id| ==> '0' <= h.id[i] <= '9'
    ensures DecimalValue(h.id) == data.id
    ensures h.zone == ParseZone(data.zone)
    ensures h.region == Region(h.zone)
  {
    DecimalRoundTrip(data.id);
    var zone := ParseZone(data.zone);
    HostContext(NatToDecimal(data.id), zone, Region(zone))
  }

  /** Whatever precedes the last `/` of a zone path, the zone is what
      follows it. */
  lemma ParseZoneAfterSlash(prefix: string, zone: string)
    requires '/' !in zone
    ensures ParseZone(prefix + "/" + zone) == zone
  {
    LastPieceAfterSeparator(prefix, '/', zone);
  }

  /** A zone name `<region>-<letter>` yields back its region. */
  lemma RegionOfZoneName(region: string, letter: char)
    ensures Region(region + ['-', letter]) == region
  {
  }

  /** For a zone path as the metadata server writes it, the discovered
      context holds the instance id in decimal, the zone name and its
      region. */
  lemma DiscoverZonePath(id: nat, project: nat, region: string, letter: char)
    requires '/' !in region && letter != '/'
    ensures var zone := region + ['-', letter];
      Discover(InstanceData(id, "projects/" + NatToDecimal(project) + "/zones/" + zone))
        == HostContext(NatToDecimal(id), zone, region)
  {
    var zone := region + ['-', letter];
    var prefix := "projects/" + NatToDecimal(project) + "/zones";
    assert "projects/" + NatToDecimal(project) + "/zones/" + zone == prefix + "/" + zone;
    ParseZoneAfterSlash(prefix, zone);
    RegionOfZoneName(region, letter);
  }

  /** Explicit metadata must own the three properties `id`, `zone` and
      `region`. */
  predicate WellFormed(explicit: map<string, string>) {
    "id" in explicit && "zone" in explicit && "region" in explicit
  }

  /** The host context an explicit, well-formed metadata object provides. */
  function FromExplicit(explicit: map<string, string>): (h: HostContext)
    requires WellFormed(explicit)
    ensures h.id == explicit["id"] && h.zone == explicit["zone"] && h.region == explicit["region"]
  {
    HostContext(explicit["id"], explicit["zone"], explicit["region"])
  }
}

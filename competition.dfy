/**
 * The parsed campaign, the competition record built from it, and the
 * envelope published for it (index.js, lines 23-62).
 */
module Competition {
  import opened Wrappers
  import opened Errors
  import opened EntryMethods
  import opened Region

  datatype Campaign = Campaign(
    name: string,
    siteUrl: string,
    siteName: string,
    startsAt: int,              // epoch seconds
    endsAt: int,                // epoch seconds
    termsAndConditions: string)

  /** One image candidate; `url` and `src` are absent when the object has no such key. */
  datatype Incentive = Incentive(url: Option<string>, src: Option<string>)

  /**
   * The object `JSON.parse` returns: `campaign`, `incentives` and
   * `entry_methods`. An incentive that is `None` stands for a falsy array
   * element such as `null`.
   */
  datatype Info = Info(campaign: Campaign, incentives: seq<Option<Incentive>>, entryMethods: seq<EntryMethod>)

  datatype Resource = Resource(resourceId: string, text: string, posted: int)

  datatype Promoter = Promoter(homepage: string, resourceId: string, screenName: string, name: string, thumbnail: string)

  datatype Data = Data(resource: Resource, promoter: Promoter)

  /**
   * The record handed to the persister. `endDate` is the time value of
   * `end_date` in milliseconds; its ISO-8601 text is not modelled.
   * `sourceId` is `SOURCE_ID` from the environment, absent when unset.
   */
  datatype Record = Record(
    entrants: string,
    sourceId: Option<string>,
    entryMethods: seq<string>,
    media: Option<string>,
    endDate: int,
    data: Data)

  /** `{region_id, competitions, method}`; the `method` key is `operation` here. */
  datatype Envelope = Envelope(regionId: int, competitions: seq<Record>, operation: string)

  const FaviconService: string := "https://www.google.com/s2/favicons?domain="

  /** The largest time value, in milliseconds, that a `Date` can hold (section 21.4.1.1 of ECMA-262). */
  const MaxTimeValue: int := 8_640_000_000_000_000

  /** `new Date(ms).toISOString()` throws a RangeError outside this range. */
  predicate ValidTimeValue(ms: int) {
    -MaxTimeValue <= ms <= MaxTimeValue
  }

  /** JavaScript truthiness of an optional string property. */
  predicate Truthy(v: Option<string>) {
    v.Some? && v.value != ""
  }

  /** The shifted first incentive is usable: present, and without a truthy `src`. */
  predicate UsableMedia(media: Option<Incentive>) {
    media.Some? && !Truthy(media.value.src)
  }

  /** `incentives.shift()` as a value: the removed element (`None` for an empty list) and what is left. */
  function Shift(incentives: seq<Option<Incentive>>): (r: (Option<Incentive>, seq<Option<Incentive>>))
    ensures |incentives| > 0 ==> [r.0] + r.1 == incentives
    ensures |incentives| == 0 ==> r.0.None? && r.1 == []
  {
    if |incentives| == 0 then (None, []) else (incentives[0], incentives[1..])
  }

  /** The promoter sub-record: homepage, hashed identifier, names and favicon. */
  function PromoterOf(c: Campaign, digest: string -> string): Promoter {
    Promoter(c.siteUrl, digest(c.siteUrl), c.siteName, c.siteName, FaviconService + c.siteUrl)
  }

  /** The competition record of lines 24-54, or the failure one of its steps throws. */
  function Normalize(url: string, entrants: string, info: Info, digest: string -> string,
                     sourceId: Option<string>): Result<Record, Failure>
  {
    var media := Shift(info.incentives).0;
    if !UsableMedia(media) then Failure(InvalidResource)
    else if !ValidTimeValue(info.campaign.endsAt * 1000) then Failure(InvalidEndDate)
    else
      Success(Record(
        entrants,
        sourceId,
        GetEntryMethods(info.entryMethods),
        media.value.url,
        info.campaign.endsAt * 1000,
        Data(Resource(url, info.campaign.name, info.campaign.startsAt * 1000),
             PromoterOf(info.campaign, digest))))
  }

  /** The message body of lines 58-62. */
  function EnvelopeFor(info: Info, record: Record): Envelope {
    Envelope(RegionId(info.campaign.termsAndConditions), [record], "POST")
  }

  /**
   * A record is built exactly when the first incentive is usable and the end
   * date is representable; it then carries that incentive's url, the times in
   * milliseconds, and the campaign's deduplicated entry types.
   */
  lemma NormalizeSpec(url: string, entrants: string, info: Info, digest: string -> string,
                      sourceId: Option<string>)
    ensures Normalize(url, entrants, info, digest, sourceId).Success? <==>
              |info.incentives| > 0 && info.incentives[0].Some? && !Truthy(info.incentives[0].value.src) &&
              ValidTimeValue(info.campaign.endsAt * 1000)
    ensures var r := Normalize(url, entrants, info, digest, sourceId);
            r.Success? ==>
              r.value.media == info.incentives[0].value.url &&
              r.value.entrants == entrants &&
              r.value.endDate == info.campaign.endsAt * 1000 &&
              r.value.data.resource == Resource(url, info.campaign.name, info.campaign.startsAt * 1000) &&
              r.value.sourceId == sourceId &&
              r.value.data.promoter == Promoter(info.campaign.siteUrl, digest(info.campaign.siteUrl),
                                                info.campaign.siteName, info.campaign.siteName,
                                                FaviconService + info.campaign.siteUrl) &&
              r.value.entryMethods == Distinct(EntryTypes(info.entryMethods))
    ensures (|info.incentives| == 0 || info.incentives[0].None? || Truthy(info.incentives[0].value.src)) ==>
              Normalize(url, entrants, info, digest, sourceId) == Failure(InvalidResource)
  {
  }

  /** Only the first incentive is looked at: a usable later one does not rescue an unusable first. */
  lemma OnlyFirstIncentiveCounts(url: string, entrants: string, c: Campaign, first: Incentive,
                                 rest: seq<Option<Incentive>>, methods: seq<EntryMethod>,
                                 digest: string -> string, sourceId: Option<string>)
    requires Truthy(first.src)
    ensures Normalize(url, entrants, Info(c, [Some(first)] + rest, methods), digest, sourceId) ==
              Failure(InvalidResource)
  {
  }

  /**
   * The envelope holds exactly the one record and the POST tag, and its
   * region is the one the terms classify to: Canada when they carry a
   * Canada marker, else Australia, else the United States, else elsewhere.
   */
  lemma EnvelopeShape(info: Info, record: Record)
    ensures |EnvelopeFor(info, record).competitions| == 1 && EnvelopeFor(info, record).competitions[0] == record
    ensures EnvelopeFor(info, record).operation == "POST"
    ensures var t := info.campaign.termsAndConditions;
            EnvelopeFor(info, record).regionId ==
              (if MentionsCanada(t) then Canada
               else if MentionsAustralia(t) then Australia
               else if MentionsUnitedStates(t) then UnitedStates
               else Elsewhere)
  {
    RegionIdCases(info.campaign.termsAndConditions);
  }
}

/** CWops: builds the CloudWatch connection of a test session from
    credentials, a region or an endpoint, and seeds the registry of the
    resources the session creates. */
module CWops {
  import opened Wrappers

  /** `EC2RegionData`: the region names the wrapper knows, with their endpoints. */
  const EC2RegionData: map<string, string> := map[
    "us-east-1" := "ec2.us-east-1.amazonaws.com",
    "us-west-1" := "ec2.us-west-1.amazonaws.com",
    "eu-west-1" := "ec2.eu-west-1.amazonaws.com",
    "ap-northeast-1" := "ec2.ap-northeast-1.amazonaws.com",
    "ap-southeast-1" := "ec2.ap-southeast-1.amazonaws.com"]

  /** Python truthiness of an optional string argument: None and "" are false. */
  predicate Truthy(s: Option<string>)
  {
    s.Some? && s.value != ""
  }

  /** boto's `RegionInfo`; a fresh one has neither a name nor an endpoint. */
  datatype RegionInfo = RegionInfo(name: Option<string>, endpoint: Option<string>)

  /** The region `setup_cw_connection` builds, or the exception it raises.
      `ec2Ip` is what `get_ec2_ip()` returns. */
  function ResolveRegion(endpoint: Option<string>, host: Option<string>, region: Option<string>, ec2Ip: string)
    : (r: Result<RegionInfo, string>)
    // the only error: a region outside the table with no endpoint to fall back on
    ensures r.Failure? <==> Truthy(region) && !Truthy(endpoint) && region.value !in EC2RegionData
    ensures r.Failure? ==> r.error == "Unknown region: " + region.value
    // a known region without an endpoint takes the table's hostname
    ensures (Truthy(region) && !Truthy(endpoint) && region.value in EC2RegionData)
              ==> r == Success(RegionInfo(None, Some(EC2RegionData[region.value])))
    // an explicit endpoint wins over the table, so no region is unknown
    ensures Truthy(region) && Truthy(endpoint) ==> r == Success(RegionInfo(None, endpoint))
    // without a region, the region is named 'eucalyptus'
    ensures !Truthy(region) ==> r.Success? && r.value.name == Some("eucalyptus")
    ensures (!Truthy(region) && !Truthy(host))
              ==> r.value.endpoint == (if Truthy(endpoint) then endpoint else Some(ec2Ip))
    // with a host and no region the endpoint is never set
    ensures !Truthy(region) && Truthy(host) ==> r.value.endpoint == None
    // whenever a region is returned for a truthy region, its name is left unset
    ensures Truthy(region) && r.Success? ==> r.value.name == None
  {
    if Truthy(region) then
      if Truthy(endpoint) then Success(RegionInfo(None, endpoint))
      else if region.value in EC2RegionData then Success(RegionInfo(None, Some(EC2RegionData[region.value])))
      else Failure("Unknown region: " + region.value)
    else if Truthy(host) then Success(RegionInfo(Some("eucalyptus"), None))
    else Success(RegionInfo(Some("eucalyptus"), if Truthy(endpoint) then endpoint else Some(ec2Ip)))
  }

  /** `re.search('2.6', version)`: some '2' is followed, one character
      later, by a '6'. Without the DOTALL flag the '.' in between matches any
      character except a newline. */
  function VersionMatches26(version: string): (r: bool)
    ensures r <==> exists i :: 0 <= i && i + 2 < |version|
                              && version[i] == '2' && version[i + 1] != '\n' && version[i + 2] == '6'
  {
    if |version| < 3 then false
    else if version[0] == '2' && version[1] != '\n' && version[2] == '6' then true
    else VersionMatches26(version[1..])
  }

  /** The pattern is unanchored and its '.' is a wildcard for all but a
      newline: it accepts 2.6.x, but also any version with '2', one
      character, '6' anywhere in it. */
  lemma VersionPatternExamples()
    ensures VersionMatches26("2.6.0")
    ensures !VersionMatches26("2.5.2")
    ensures !VersionMatches26("2.16")
    ensures VersionMatches26("3.2.6")
    ensures VersionMatches26("2x6")
    ensures !VersionMatches26("2\n6")
  {
  }

  /** A value in the connection-argument dictionary. */
  datatype ArgValue = Str(text: Option<string>) | Flag(flag: bool) | Int(number: int) | Region(info: RegionInfo)

  /** The keys every connection-argument dictionary holds. */
  const BaseArgKeys: set<string> :=
    {"aws_access_key_id", "aws_secret_access_key", "is_secure", "debug", "port", "path", "region"}

  /** The arguments handed to `boto.connect_cloudwatch`. */
  function ConnectionArgs(awsAccessKeyId: Option<string>, awsSecretAccessKey: Option<string>, isSecure: bool,
                          botoDebug: int, port: int, path: string, region: RegionInfo, botoVersion: string)
    : (args: map<string, ArgValue>)
    ensures args.Keys == BaseArgKeys + (if VersionMatches26(botoVersion) then {"validate_certs"} else {})
    ensures "validate_certs" in args <==> VersionMatches26(botoVersion)
    ensures "validate_certs" in args ==> args["validate_certs"] == Flag(false)
    ensures args["aws_access_key_id"] == Str(awsAccessKeyId)
    ensures args["aws_secret_access_key"] == Str(awsSecretAccessKey)
    ensures args["is_secure"] == Flag(isSecure) && args["debug"] == Int(botoDebug) && args["port"] == Int(port)
    ensures args["path"] == Str(Some(path)) && args["region"] == Region(region)
  {
    var base := map[
      "aws_access_key_id" := Str(awsAccessKeyId),
      "aws_secret_access_key" := Str(awsSecretAccessKey),
      "is_secure" := Flag(isSecure),
      "debug" := Int(botoDebug),
      "port" := Int(port),
      "path" := Str(Some(path)),
      "region" := Region(region)];
    if VersionMatches26(botoVersion) then base["validate_certs" := Flag(false)] else base
  }

  /** The connection object `boto.connect_cloudwatch` returns, known by the
      arguments it was made with. */
  datatype CloudWatchConnection = CloudWatchConnection(args: map<string, ArgValue>)

  /** An artifact recorded in the resource registry. */
  datatype TrackedResource = TrackedResource(id: string)

  /** The prefix of the message logged when the connection cannot be made. */
  const UnableToConnect: string := "Was unable to create ec2 connection because of exception: "

  /** The Python 2 text of the TypeError raised when a None endpoint is
      concatenated into the debug message. */
  const NoneConcatenation: string := "cannot concatenate 'str' and 'NoneType' objects"

  /** The exception text the `try` block of `setup_cw_connection` catches, if any:
      the debug message fails on a None endpoint before any connection is
      attempted; otherwise `connectRaises` says whether the SDK call throws. */
  function ConnectFailure(region: RegionInfo, connectRaises: Option<string>): (failure: Option<string>)
  {
    if region.endpoint.None? then Some(NoneConcatenation) else connectRaises
  }

  /** The registry keys `setup_cw_resource_trackers` creates. */
  const ResourceKinds: set<string> := {"alarms", "metric", "datapoint"}

  class CWops {
    var awsAccessKeyId: Option<string>
    var awsSecretAccessKey: Option<string>
    var accountId: Option<string>
    var userId: Option<string>
    var username: string
    var pollCount: int
    var testResources: map<string, seq<TrackedResource>>
    var keyDir: string
    var ec2SourceIp: Option<string>
    var cw: Option<CloudWatchConnection>
    var criticalLog: seq<string>

    /** The start of `__init__`: the attributes set before the connection
        is made. The attributes Python has not created yet start empty. */
    constructor Init(awsAccessKeyId: Option<string>, awsSecretAccessKey: Option<string>)
      ensures this.awsAccessKeyId == awsAccessKeyId && this.awsSecretAccessKey == awsSecretAccessKey
      ensures accountId == None && userId == None
      ensures username == "" && pollCount == 0 && testResources == map[] && keyDir == ""
      ensures ec2SourceIp == None && cw == None && criticalLog == []
    {
      this.awsAccessKeyId := awsAccessKeyId;
      this.awsSecretAccessKey := awsSecretAccessKey;
      accountId := None;
      userId := None;
      username := "";
      pollCount := 0;
      testResources := map[];
      keyDir := "";
      ec2SourceIp := None;
      cw := None;
      criticalLog := [];
    }

    /** `setup_cw_connection`. Returns the text of the exception it raises,
        if it raises. `ec2Ip` is the answer of `get_ec2_ip()`, `botoVersion`
        is `boto.__version__`, `connectRaises` the exception text of
        `boto.connect_cloudwatch`, if it throws. `apiVersion` is accepted and
        not used, as in the source. */
    method SetupCwConnection(endpoint: Option<string> := None, awsAccessKeyId: Option<string> := None,
                             awsSecretAccessKey: Option<string> := None, isSecure: bool := true,
                             host: Option<string> := None, region: Option<string> := None,
                             path: string := "/", port: int := 443, apiVersion: string := "2012-07-20",
                             botoDebug: int := 0,
                             ec2Ip: string, botoVersion: string, connectRaises: Option<string>)
      returns (raised: Option<string>)
      modifies this`cw, this`criticalLog, this`ec2SourceIp
      ensures var resolved := ResolveRegion(endpoint, host, region, ec2Ip);
        raised == if resolved.Failure? then Some(resolved.error) else None
      // raising happens before any connection is attempted
      ensures raised.Some? ==> cw == old(cw) && criticalLog == old(criticalLog) && ec2SourceIp == old(ec2SourceIp)
      ensures raised.None? ==>
        var info := ResolveRegion(endpoint, host, region, ec2Ip).value;
        var failure := ConnectFailure(info, connectRaises);
        && ec2SourceIp == None
        && cw == (if failure.None?
                  then Some(CloudWatchConnection(ConnectionArgs(awsAccessKeyId, awsSecretAccessKey, isSecure,
                                                                botoDebug, port, path, info, botoVersion)))
                  else old(cw))
        && criticalLog == old(criticalLog) + (if failure.Some? then [UnableToConnect + failure.value] else [])
    {
      var ec2Region := RegionInfo(None, None);
      if region.Some? && region.value != "" {
        if !(endpoint.Some? && endpoint.value != "") {
          if region.value !in EC2RegionData {
            return Some("Unknown region: " + region.value);
          }
          ec2Region := ec2Region.(endpoint := Some(EC2RegionData[region.value]));
        } else {
          ec2Region := ec2Region.(endpoint := endpoint);
        }
      } else {
        ec2Region := ec2Region.(name := Some("eucalyptus"));
        if !(host.Some? && host.value != "") {
          if endpoint.Some? && endpoint.value != "" {
            ec2Region := ec2Region.(endpoint := endpoint);
          } else {
            ec2Region := ec2Region.(endpoint := Some(ec2Ip));
          }
        }
      }
      var connectionArgs := map[
        "aws_access_key_id" := Str(awsAccessKeyId),
        "aws_secret_access_key" := Str(awsSecretAccessKey),
        "is_secure" := Flag(isSecure),
        "debug" := Int(botoDebug),
        "port" := Int(port),
        "path" := Str(Some(path)),
        "region" := Region(ec2Region)];
      if VersionMatches26(botoVersion) {
        connectionArgs := connectionArgs["validate_certs" := Flag(false)];
      }

      // the try block: a shallow copy, with path and region set again
      var ec2ConnectionArgs := connectionArgs;
      ec2ConnectionArgs := ec2ConnectionArgs["path" := Str(Some(path))];
      ec2ConnectionArgs := ec2ConnectionArgs["region" := Region(ec2Region)];
      assert ec2ConnectionArgs == connectionArgs;
      assert ec2Region == ResolveRegion(endpoint, host, region, ec2Ip).value;
      assert connectionArgs == ConnectionArgs(awsAccessKeyId, awsSecretAccessKey, isSecure,
                                              botoDebug, port, path, ec2Region, botoVersion);
      if ec2Region.endpoint.None? {
        // building the debug message fails before the connection is attempted
        criticalLog := criticalLog + [UnableToConnect + NoneConcatenation];
      } else if connectRaises.Some? {
        criticalLog := criticalLog + [UnableToConnect + connectRaises.value];
      } else {
        cw := Some(CloudWatchConnection(ec2ConnectionArgs));
      }

      ec2SourceIp := None;
      raised := None;
    }

    /** `setup_cw_resource_trackers`: one empty list per tracked kind. */
    method SetupCwResourceTrackers()
      modifies this`testResources
      ensures testResources == old(testResources)["alarms" := []]["metric" := []]["datapoint" := []]
      ensures testResources.Keys == old(testResources).Keys + ResourceKinds
    {
      testResources := testResources["alarms" := []];
      testResources := testResources["metric" := []];
      testResources := testResources["datapoint" := []];
    }

    /** The end of `__init__`, after the connection is set up: the poll
        count, the user name, the resource trackers and the key directory. */
    method FinishInit(username: string)
      modifies this`pollCount, this`username, this`testResources, this`keyDir, this`ec2SourceIp
      ensures pollCount == 48 && this.username == username && keyDir == "./" && ec2SourceIp == None
      ensures testResources == map["alarms" := [], "metric" := [], "datapoint" := []]
      ensures testResources.Keys == ResourceKinds
      ensures forall kind :: kind in testResources ==> testResources[kind] == []
    {
      pollCount := 48;
      this.username := username;
      testResources := map[];
      SetupCwResourceTrackers();
      keyDir := "./";
      ec2SourceIp := None;
    }

    /** `CWops(...)`: the constructor, which raises when
        `setup_cw_connection` raises. The parameters after `apiVersion` are
        the answers of the calls the model does not make. */
    static method Create(host: Option<string> := None, endpoint: Option<string> := None,
                         awsAccessKeyId: Option<string> := None, awsSecretAccessKey: Option<string> := None,
                         username: string := "root", region: Option<string> := None, isSecure: bool := false,
                         path: string := "/", port: int := 80, botoDebug: int := 0,
                         apiVersion: string := "2012-07-20",
                         ec2Ip: string, botoVersion: string, connectRaises: Option<string>)
      returns (r: Result<CWops, string>)
      ensures var resolved := ResolveRegion(endpoint, host, region, ec2Ip);
        && (r.Failure? <==> resolved.Failure?)
        && (r.Failure? ==> r.error == resolved.error)
      ensures r.Success? ==>
        var s := r.value;
        var info := ResolveRegion(endpoint, host, region, ec2Ip).value;
        var failure := ConnectFailure(info, connectRaises);
        && fresh(s)
        && s.awsAccessKeyId == awsAccessKeyId && s.awsSecretAccessKey == awsSecretAccessKey
        && s.accountId == None && s.userId == None
        && s.pollCount == 48 && s.username == username && s.keyDir == "./" && s.ec2SourceIp == None
        && s.testResources.Keys == ResourceKinds
        && (forall kind :: kind in s.testResources ==> s.testResources[kind] == [])
        && s.cw == (if failure.None?
                    then Some(CloudWatchConnection(ConnectionArgs(awsAccessKeyId, awsSecretAccessKey, isSecure,
                                                                  botoDebug, port, path, info, botoVersion)))
                    else None)
        && s.criticalLog == (if failure.Some? then [UnableToConnect + failure.value] else [])
    {
      var session := new CWops.Init(awsAccessKeyId, awsSecretAccessKey);
      var raised := session.SetupCwConnection(host := host, region := region, endpoint := endpoint,
                                              awsAccessKeyId := session.awsAccessKeyId,
                                              awsSecretAccessKey := session.awsSecretAccessKey,
                                              isSecure := isSecure, path := path, port := port,
                                              botoDebug := botoDebug, apiVersion := apiVersion,
                                              ec2Ip := ec2Ip, botoVersion := botoVersion,
                                              connectRaises := connectRaises);
      if raised.Some? {
        return Failure(raised.value);
      }
      session.FinishInit(username);
      return Success(session);
    }
  }
}

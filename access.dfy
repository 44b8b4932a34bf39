/**
 * The access record of ui/src/domain/access.ts. An access holds a provider tag and a
 * `config` object whose type is the intersection of an open record (any extra keys)
 * with the union of the per-provider config types `AccessConfigForX`.
 *
 * Each config type is described here twice: as a `Shape` (the field names, their
 * kinds and whether they are required), which is how TypeScript checks an object
 * structurally; and as a typed Dafny record, with `Option` for the optional fields.
 * `Decode` reads a typed record out of an object for a given provider and `Encode`
 * writes one back; both are defined once, generically over shapes.
 */
module Access {
  import opened Wrappers
  import opened Values
  import Providers

  // ---------------------------------------------------------------------------
  // Structural types

  datatype FieldKind = StringKind | NumberKind

  /** One property of an object type: `name: kind` when required, `name?: kind` when not. */
  datatype Field = Field(name: string, kind: FieldKind, required: bool)

  /** An object type, as its properties in declaration order. */
  type Shape = seq<Field>

  predicate HasKind(v: Value, kind: FieldKind) {
    match kind
    case StringKind => v.Str?
    case NumberKind => v.Num?
  }

  /** obj satisfies property f: it holds a value of the right kind there, or f is optional and absent. */
  predicate FieldConforms(obj: Obj, f: Field) {
    if f.name in obj then HasKind(obj[f.name], f.kind) else !f.required
  }

  /** obj has the object type shape; keys the shape does not mention are allowed. */
  predicate Conforms(obj: Obj, shape: Shape) {
    forall i :: 0 <= i < |shape| ==> FieldConforms(obj, shape[i])
  }

  function Names(shape: Shape): set<string> {
    set i | 0 <= i < |shape| :: shape[i].name
  }

  predicate DistinctNames(shape: Shape) {
    forall i, j :: 0 <= i < j < |shape| ==> shape[i].name != shape[j].name
  }

  /** The values of a shape's properties in order, `None` for an absent optional one. */
  type FieldValues = seq<Option<Value>>

  /** vs lists one well-kinded value per property of shape, and a value for every required one. */
  predicate Matches(vs: FieldValues, shape: Shape) {
    |vs| == |shape| &&
    forall i :: 0 <= i < |shape| ==>
      match vs[i]
      case None => !shape[i].required
      case Some(v) => HasKind(v, shape[i].kind)
  }

  /** Reads the properties of shape out of obj, failing on a missing required or ill-kinded one. */
  function ReadShape(obj: Obj, shape: Shape): (r: Option<FieldValues>)
    ensures r.Some? ==> Matches(r.value, shape)
    decreases |shape|
  {
    if shape == [] then Some([])
    else
      var f := shape[0];
      var rest :- ReadShape(obj, shape[1..]);
      if f.name in obj then
        if HasKind(obj[f.name], f.kind) then Some([Some(obj[f.name])] + rest) else None
      else if f.required then None
      else Some([None] + rest)
  }

  /** The object holding exactly the present values of vs under their property names. */
  function ObjectOf(shape: Shape, vs: FieldValues): (obj: Obj)
    requires |vs| == |shape|
    ensures obj.Keys <= Names(shape)
    decreases |shape|
  {
    if shape == [] then map[]
    else
      var rest := ObjectOf(shape[1..], vs[1..]);
      NamesOfTail(shape);
      match vs[0]
      case Some(v) => rest[shape[0].name := v]
      case None => rest
  }

  /** Reading a shape succeeds exactly when the object conforms to it. */
  lemma {:induction false} ReadShapeIffConforms(obj: Obj, shape: Shape)
    ensures ReadShape(obj, shape).Some? <==> Conforms(obj, shape)
    decreases |shape|
  {
    if shape != [] {
      ReadShapeIffConforms(obj, shape[1..]);
      assert Conforms(obj, shape) <==> FieldConforms(obj, shape[0]) && Conforms(obj, shape[1..]) by {
        if FieldConforms(obj, shape[0]) && Conforms(obj, shape[1..]) {
          forall i | 0 <= i < |shape| ensures FieldConforms(obj, shape[i]) {
            if i > 0 { assert shape[i] == shape[1..][i - 1]; }
          }
        }
      }
    }
  }

  /** Reading a shape looks only at the shape's own property names. */
  lemma {:induction false} ReadShapeIsLocal(obj1: Obj, obj2: Obj, shape: Shape)
    requires AgreeOn(obj1, obj2, Names(shape))
    ensures ReadShape(obj1, shape) == ReadShape(obj2, shape)
    decreases |shape|
  {
    if shape != [] {
      NamesOfTail(shape);
      assert SameEntry(obj1, obj2, shape[0].name);
      ReadShapeIsLocal(obj1, obj2, shape[1..]);
    }
  }

  /** The names of a non-empty shape: its first property's and those of the rest. */
  lemma NamesOfTail(shape: Shape)
    requires shape != []
    ensures Names(shape) == {shape[0].name} + Names(shape[1..])
  {
    forall k | k in Names(shape[1..]) ensures k in Names(shape) {
      var i :| 0 <= i < |shape[1..]| && shape[1..][i].name == k;
      assert shape[i + 1].name == k;
    }
  }

  /** Distinct names and matching values carry over to the rest of a shape. */
  lemma TailMatches(shape: Shape, vs: FieldValues)
    requires shape != [] && DistinctNames(shape) && Matches(vs, shape)
    ensures DistinctNames(shape[1..]) && Matches(vs[1..], shape[1..])
    ensures shape[0].name !in Names(shape[1..])
  {
    var tail, vtail := shape[1..], vs[1..];
    forall i | 0 <= i < |tail|
      ensures match vtail[i] case None => !tail[i].required case Some(v) => HasKind(v, tail[i].kind)
    {
      assert vtail[i] == vs[i + 1] && tail[i] == shape[i + 1];
    }
    forall i, j | 0 <= i < j < |tail| ensures tail[i].name != tail[j].name {
      assert tail[i] == shape[i + 1] && tail[j] == shape[j + 1];
    }
    forall i | 0 <= i < |tail| ensures tail[i].name != shape[0].name {
      assert tail[i] == shape[i + 1];
    }
  }

  /** Writing values and reading them back gives them back. */
  lemma {:induction false} ReadObjectOf(shape: Shape, vs: FieldValues)
    requires DistinctNames(shape) && Matches(vs, shape)
    ensures ReadShape(ObjectOf(shape, vs), shape) == Some(vs)
    decreases |shape|
  {
    if shape != [] {
      var tail, vtail := shape[1..], vs[1..];
      TailMatches(shape, vs);
      ReadObjectOf(tail, vtail);
      var rest := ObjectOf(tail, vtail);
      var obj := ObjectOf(shape, vs);
      var name := shape[0].name;
      assert name !in rest;
      assert AgreeOn(obj, rest, Names(tail)) by {
        forall k | k in Names(tail) ensures SameEntry(obj, rest, k) {
          assert k != name;
        }
      }
      ReadShapeIsLocal(obj, rest, tail);
      assert ReadShape(obj, tail) == Some(vtail);
      assert name in obj <==> vs[0].Some?;
      assert vs == [vs[0]] + vtail;
    }
  }

  /** Extra keys the shape does not name do not change what is read. */
  lemma ReadShapeIgnoresOtherKeys(obj: Obj, extra: Obj, shape: Shape)
    requires extra.Keys !! Names(shape)
    ensures ReadShape(obj + extra, shape) == ReadShape(obj, shape)
  {
    assert AgreeOn(obj + extra, obj, Names(shape)) by {
      forall k | k in Names(shape) ensures SameEntry(obj + extra, obj, k) {
        assert k !in extra;
      }
    }
    ReadShapeIsLocal(obj + extra, obj, shape);
  }

  // ---------------------------------------------------------------------------
  // The config types

  /** AccessConfigForACMEHttpReq. */
  const ACMEHttpReqShape: Shape := [
    Field("endpoint", StringKind, true),
    Field("mode", StringKind, false),
    Field("username", StringKind, false),
    Field("password", StringKind, false)
  ]

  /** AccessConfigForAliyun. */
  const AliyunShape: Shape := [
    Field("accessKeyId", StringKind, true),
    Field("accessKeySecret", StringKind, true)
  ]

  /** AccessConfigForAWS. */
  const AWSShape: Shape := [
    Field("accessKeyId", StringKind, true),
    Field("secretAccessKey", StringKind, true)
  ]

  /** AccessConfigForAzure. */
  const AzureShape: Shape := [
    Field("tenantId", StringKind, true),
    Field("clientId", StringKind, true),
    Field("clientSecret", StringKind, true),
    Field("environment", StringKind, false)
  ]

  /** AccessConfigForBaiduCloud. */
  const BaiduCloudShape: Shape := [
    Field("accessKeyId", StringKind, true),
    Field("secretAccessKey", StringKind, true)
  ]

  /** AccessConfigForBytePlus. */
  const BytePlusShape: Shape := [
    Field("accessKey", StringKind, true),
    Field("secretKey", StringKind, true)
  ]

  /** AccessConfigForCloudflare. */
  const CloudflareShape: Shape := [Field("dnsApiToken", StringKind, true)]

  /** AccessConfigForDogeCloud. */
  const DogeCloudShape: Shape := [
    Field("accessKey", StringKind, true),
    Field("secretKey", StringKind, true)
  ]

  /** AccessConfigForEdgio. */
  const EdgioShape: Shape := [
    Field("clientId", StringKind, true),
    Field("clientSecret", StringKind, true)
  ]

  /** AccessConfigForGoDaddy. */
  const GoDaddyShape: Shape := [
    Field("apiKey", StringKind, true),
    Field("apiSecret", StringKind, true)
  ]

  /** AccessConfigForHuaweiCloud. */
  const HuaweiCloudShape: Shape := [
    Field("accessKeyId", StringKind, true),
    Field("secretAccessKey", StringKind, true)
  ]

  /** AccessConfigForKubernetes. */
  const KubernetesShape: Shape := [Field("kubeConfig", StringKind, false)]

  /** AccessConfigForLocal. */
  const LocalShape: Shape := []

  /** AccessConfigForNameDotCom. */
  const NameDotComShape: Shape := [
    Field("username", StringKind, true),
    Field("apiToken", StringKind, true)
  ]

  /** AccessConfigForNameSilo. */
  const NameSiloShape: Shape := [Field("apiKey", StringKind, true)]

  /** AccessConfigForNS1. */
  const NS1Shape: Shape := [Field("apiKey", StringKind, true)]

  /** AccessConfigForPowerDNS. */
  const PowerDNSShape: Shape := [Field("apiUrl", StringKind, true), Field("apiKey", StringKind, true)]

  /** AccessConfigForQiniu. */
  const QiniuShape: Shape := [
    Field("accessKey", StringKind, true),
    Field("secretKey", StringKind, true)
  ]

  /** AccessConfigForSSH. */
  const SSHShape: Shape := [
    Field("host", StringKind, true),
    Field("port", NumberKind, true),
    Field("username", StringKind, true),
    Field("password", StringKind, false),
    Field("key", StringKind, false),
    Field("keyPassphrase", StringKind, false)
  ]

  /** AccessConfigForTencentCloud. */
  const TencentCloudShape: Shape := [
    Field("secretId", StringKind, true),
    Field("secretKey", StringKind, true)
  ]

  /** AccessConfigForUCloud. */
  const UCloudShape: Shape := [
    Field("privateKey", StringKind, true),
    Field("publicKey", StringKind, true),
    Field("projectId", StringKind, false)
  ]

  /** AccessConfigForVolcEngine. */
  const VolcEngineShape: Shape := [
    Field("accessKeyId", StringKind, true),
    Field("secretAccessKey", StringKind, true)
  ]

  /** AccessConfigForWebhook. */
  const WebhookShape: Shape := [Field("url", StringKind, true)]

  /** The members of the `config` union, in the order they are listed (AccessConfigForNS1 is not one). */
  const ConfigUnion: seq<Shape> := [
    ACMEHttpReqShape,
    AliyunShape,
    AWSShape,
    AzureShape,
    BaiduCloudShape,
    BytePlusShape,
    CloudflareShape,
    DogeCloudShape,
    EdgioShape,
    GoDaddyShape,
    HuaweiCloudShape,
    KubernetesShape,
    LocalShape,
    NameDotComShape,
    NameSiloShape,
    PowerDNSShape,
    QiniuShape,
    SSHShape,
    TencentCloudShape,
    UCloudShape,
    VolcEngineShape,
    WebhookShape
  ]

  /** obj has the type of `config`: the open record intersected with one of the union's members. */
  predicate InConfigUnion(obj: Obj) {
    exists i :: 0 <= i < |ConfigUnion| && Conforms(obj, ConfigUnion[i])
  }

  /** The members of the union, by the name of their config type. */
  datatype ConfigType =
    | ForACMEHttpReq
    | ForAliyun
    | ForAWS
    | ForAzure
    | ForBaiduCloud
    | ForBytePlus
    | ForCloudflare
    | ForDogeCloud
    | ForEdgio
    | ForGoDaddy
    | ForHuaweiCloud
    | ForKubernetes
    | ForLocal
    | ForNameDotCom
    | ForNameSilo
    | ForPowerDNS
    | ForQiniu
    | ForSSH
    | ForTencentCloud
    | ForUCloud
    | ForVolcEngine
    | ForWebhook

  function ShapeOf(t: ConfigType): Shape {
    match t
    case ForACMEHttpReq => ACMEHttpReqShape
    case ForAliyun => AliyunShape
    case ForAWS => AWSShape
    case ForAzure => AzureShape
    case ForBaiduCloud => BaiduCloudShape
    case ForBytePlus => BytePlusShape
    case ForCloudflare => CloudflareShape
    case ForDogeCloud => DogeCloudShape
    case ForEdgio => EdgioShape
    case ForGoDaddy => GoDaddyShape
    case ForHuaweiCloud => HuaweiCloudShape
    case ForKubernetes => KubernetesShape
    case ForLocal => LocalShape
    case ForNameDotCom => NameDotComShape
    case ForNameSilo => NameSiloShape
    case ForPowerDNS => PowerDNSShape
    case ForQiniu => QiniuShape
    case ForSSH => SSHShape
    case ForTencentCloud => TencentCloudShape
    case ForUCloud => UCloudShape
    case ForVolcEngine => VolcEngineShape
    case ForWebhook => WebhookShape
  }

  /** The provider tag each config type belongs to. */
  function ProviderTag(t: ConfigType): string {
    match t
    case ForACMEHttpReq => "acmehttpreq"
    case ForAliyun => "aliyun"
    case ForAWS => "aws"
    case ForAzure => "azure"
    case ForBaiduCloud => "baiducloud"
    case ForBytePlus => "byteplus"
    case ForCloudflare => "cloudflare"
    case ForDogeCloud => "dogecloud"
    case ForEdgio => "edgio"
    case ForGoDaddy => "godaddy"
    case ForHuaweiCloud => "huaweicloud"
    case ForKubernetes => "k8s"
    case ForLocal => "local"
    case ForNameDotCom => "namedotcom"
    case ForNameSilo => "namesilo"
    case ForPowerDNS => "powerdns"
    case ForQiniu => "qiniu"
    case ForSSH => "ssh"
    case ForTencentCloud => "tencentcloud"
    case ForUCloud => "ucloud"
    case ForVolcEngine => "volcengine"
    case ForWebhook => "webhook"
  }

  /** The config type of a provider tag; `ns1` has none, since its type is not in the union. */
  function ConfigTypeOf(provider: string): (r: Option<ConfigType>)
    ensures r.Some? ==> ProviderTag(r.value) == provider
  {
    if provider == "acmehttpreq" then Some(ForACMEHttpReq)
    else if provider == "aliyun" then Some(ForAliyun)
    else if provider == "aws" then Some(ForAWS)
    else if provider == "azure" then Some(ForAzure)
    else if provider == "baiducloud" then Some(ForBaiduCloud)
    else if provider == "byteplus" then Some(ForBytePlus)
    else if provider == "cloudflare" then Some(ForCloudflare)
    else if provider == "dogecloud" then Some(ForDogeCloud)
    else if provider == "edgio" then Some(ForEdgio)
    else if provider == "godaddy" then Some(ForGoDaddy)
    else if provider == "huaweicloud" then Some(ForHuaweiCloud)
    else if provider == "k8s" then Some(ForKubernetes)
    else if provider == "local" then Some(ForLocal)
    else if provider == "namedotcom" then Some(ForNameDotCom)
    else if provider == "namesilo" then Some(ForNameSilo)
    else if provider == "powerdns" then Some(ForPowerDNS)
    else if provider == "qiniu" then Some(ForQiniu)
    else if provider == "ssh" then Some(ForSSH)
    else if provider == "tencentcloud" then Some(ForTencentCloud)
    else if provider == "ucloud" then Some(ForUCloud)
    else if provider == "volcengine" then Some(ForVolcEngine)
    else if provider == "webhook" then Some(ForWebhook)
    else None
  }

  /** Each config type is found again from its provider tag. */
  lemma ConfigTypeOfTag(t: ConfigType)
    ensures ConfigTypeOf(ProviderTag(t)) == Some(t)
  {
    if t == ForACMEHttpReq || t == ForAliyun || t == ForAWS || t == ForAzure {
      ConfigTypeOfTagGroup0(t);
    } else if t == ForBaiduCloud || t == ForBytePlus || t == ForCloudflare || t == ForDogeCloud {
      ConfigTypeOfTagGroup1(t);
    } else if t == ForEdgio || t == ForGoDaddy || t == ForHuaweiCloud || t == ForKubernetes {
      ConfigTypeOfTagGroup2(t);
    } else if t == ForLocal || t == ForNameDotCom || t == ForNameSilo || t == ForPowerDNS {
      ConfigTypeOfTagGroup3(t);
    } else if t == ForQiniu || t == ForSSH || t == ForTencentCloud || t == ForUCloud {
      ConfigTypeOfTagGroup4(t);
    } else {
      ConfigTypeOfTagGroup5(t);
    }
  }

  /** Member i of the union is the config type with index i. */
  lemma UnionHasEveryShape(t: ConfigType)
    ensures exists i :: 0 <= i < |ConfigUnion| && ConfigUnion[i] == ShapeOf(t)
  {
    match t
    case ForACMEHttpReq => assert ConfigUnion[0] == ACMEHttpReqShape;
    case ForAliyun => assert ConfigUnion[1] == AliyunShape;
    case ForAWS => assert ConfigUnion[2] == AWSShape;
    case ForAzure => assert ConfigUnion[3] == AzureShape;
    case ForBaiduCloud => assert ConfigUnion[4] == BaiduCloudShape;
    case ForBytePlus => assert ConfigUnion[5] == BytePlusShape;
    case ForCloudflare => assert ConfigUnion[6] == CloudflareShape;
    case ForDogeCloud => assert ConfigUnion[7] == DogeCloudShape;
    case ForEdgio => assert ConfigUnion[8] == EdgioShape;
    case ForGoDaddy => assert ConfigUnion[9] == GoDaddyShape;
    case ForHuaweiCloud => assert ConfigUnion[10] == HuaweiCloudShape;
    case ForKubernetes => assert ConfigUnion[11] == KubernetesShape;
    case ForLocal => assert ConfigUnion[12] == LocalShape;
    case ForNameDotCom => assert ConfigUnion[13] == NameDotComShape;
    case ForNameSilo => assert ConfigUnion[14] == NameSiloShape;
    case ForPowerDNS => assert ConfigUnion[15] == PowerDNSShape;
    case ForQiniu => assert ConfigUnion[16] == QiniuShape;
    case ForSSH => assert ConfigUnion[17] == SSHShape;
    case ForTencentCloud => assert ConfigUnion[18] == TencentCloudShape;
    case ForUCloud => assert ConfigUnion[19] == UCloudShape;
    case ForVolcEngine => assert ConfigUnion[20] == VolcEngineShape;
    case ForWebhook => assert ConfigUnion[21] == WebhookShape;
  }

  datatype ACMEHttpReqConfig = ACMEHttpReqConfig(endpoint: string, mode: Option<string>, username: Option<string>, password: Option<string>)
  datatype AliyunConfig = AliyunConfig(accessKeyId: string, accessKeySecret: string)
  datatype AWSConfig = AWSConfig(accessKeyId: string, secretAccessKey: string)
  datatype AzureConfig = AzureConfig(tenantId: string, clientId: string, clientSecret: string, environment: Option<string>)
  datatype BaiduCloudConfig = BaiduCloudConfig(accessKeyId: string, secretAccessKey: string)
  datatype BytePlusConfig = BytePlusConfig(accessKey: string, secretKey: string)
  datatype CloudflareConfig = CloudflareConfig(dnsApiToken: string)
  datatype DogeCloudConfig = DogeCloudConfig(accessKey: string, secretKey: string)
  datatype EdgioConfig = EdgioConfig(clientId: string, clientSecret: string)
  datatype GoDaddyConfig = GoDaddyConfig(apiKey: string, apiSecret: string)
  datatype HuaweiCloudConfig = HuaweiCloudConfig(accessKeyId: string, secretAccessKey: string)
  datatype KubernetesConfig = KubernetesConfig(kubeConfig: Option<string>)
  datatype LocalConfig = LocalConfig
  datatype NameDotComConfig = NameDotComConfig(username: string, apiToken: string)
  datatype NameSiloConfig = NameSiloConfig(apiKey: string)
  datatype PowerDNSConfig = PowerDNSConfig(apiUrl: string, apiKey: string)
  datatype QiniuConfig = QiniuConfig(accessKey: string, secretKey: string)
  datatype SSHConfig = SSHConfig(host: string, port: int, username: string, password: Option<string>, key: Option<string>, keyPassphrase: Option<string>)
  datatype TencentCloudConfig = TencentCloudConfig(secretId: string, secretKey: string)
  datatype UCloudConfig = UCloudConfig(privateKey: string, publicKey: string, projectId: Option<string>)
  datatype VolcEngineConfig = VolcEngineConfig(accessKeyId: string, secretAccessKey: string)
  datatype WebhookConfig = WebhookConfig(url: string)

  /** A typed config, one variant per member of the union. */
  datatype AccessConfig =
    | ACMEHttpReq(acmeHttpReq: ACMEHttpReqConfig)
    | Aliyun(aliyun: AliyunConfig)
    | AWS(aws: AWSConfig)
    | Azure(azure: AzureConfig)
    | BaiduCloud(baiduCloud: BaiduCloudConfig)
    | BytePlus(bytePlus: BytePlusConfig)
    | Cloudflare(cloudflare: CloudflareConfig)
    | DogeCloud(dogeCloud: DogeCloudConfig)
    | Edgio(edgio: EdgioConfig)
    | GoDaddy(goDaddy: GoDaddyConfig)
    | HuaweiCloud(huaweiCloud: HuaweiCloudConfig)
    | Kubernetes(kubernetes: KubernetesConfig)
    | Local(local: LocalConfig)
    | NameDotCom(nameDotCom: NameDotComConfig)
    | NameSilo(nameSilo: NameSiloConfig)
    | PowerDNS(powerDns: PowerDNSConfig)
    | Qiniu(qiniu: QiniuConfig)
    | SSH(ssh: SSHConfig)
    | TencentCloud(tencentCloud: TencentCloudConfig)
    | UCloud(uCloud: UCloudConfig)
    | VolcEngine(volcEngine: VolcEngineConfig)
    | Webhook(webhook: WebhookConfig)

  function TypeOf(c: AccessConfig): ConfigType {
    match c
    case ACMEHttpReq(_) => ForACMEHttpReq
    case Aliyun(_) => ForAliyun
    case AWS(_) => ForAWS
    case Azure(_) => ForAzure
    case BaiduCloud(_) => ForBaiduCloud
    case BytePlus(_) => ForBytePlus
    case Cloudflare(_) => ForCloudflare
    case DogeCloud(_) => ForDogeCloud
    case Edgio(_) => ForEdgio
    case GoDaddy(_) => ForGoDaddy
    case HuaweiCloud(_) => ForHuaweiCloud
    case Kubernetes(_) => ForKubernetes
    case Local(_) => ForLocal
    case NameDotCom(_) => ForNameDotCom
    case NameSilo(_) => ForNameSilo
    case PowerDNS(_) => ForPowerDNS
    case Qiniu(_) => ForQiniu
    case SSH(_) => ForSSH
    case TencentCloud(_) => ForTencentCloud
    case UCloud(_) => ForUCloud
    case VolcEngine(_) => ForVolcEngine
    case Webhook(_) => ForWebhook
  }

  function ProviderOf(c: AccessConfig): string {
    ProviderTag(TypeOf(c))
  }

  /** The property values of a typed config, in declaration order. */
  function ValuesOf(c: AccessConfig): (vs: FieldValues) {
    match c
    case ACMEHttpReq(r) => [Some(Str(r.endpoint)), OptStr(r.mode), OptStr(r.username), OptStr(r.password)]
    case Aliyun(r) => [Some(Str(r.accessKeyId)), Some(Str(r.accessKeySecret))]
    case AWS(r) => [Some(Str(r.accessKeyId)), Some(Str(r.secretAccessKey))]
    case Azure(r) => [Some(Str(r.tenantId)), Some(Str(r.clientId)), Some(Str(r.clientSecret)), OptStr(r.environment)]
    case BaiduCloud(r) => [Some(Str(r.accessKeyId)), Some(Str(r.secretAccessKey))]
    case BytePlus(r) => [Some(Str(r.accessKey)), Some(Str(r.secretKey))]
    case Cloudflare(r) => [Some(Str(r.dnsApiToken))]
    case DogeCloud(r) => [Some(Str(r.accessKey)), Some(Str(r.secretKey))]
    case Edgio(r) => [Some(Str(r.clientId)), Some(Str(r.clientSecret))]
    case GoDaddy(r) => [Some(Str(r.apiKey)), Some(Str(r.apiSecret))]
    case HuaweiCloud(r) => [Some(Str(r.accessKeyId)), Some(Str(r.secretAccessKey))]
    case Kubernetes(r) => [OptStr(r.kubeConfig)]
    case Local(_) => []
    case NameDotCom(r) => [Some(Str(r.username)), Some(Str(r.apiToken))]
    case NameSilo(r) => [Some(Str(r.apiKey))]
    case PowerDNS(r) => [Some(Str(r.apiUrl)), Some(Str(r.apiKey))]
    case Qiniu(r) => [Some(Str(r.accessKey)), Some(Str(r.secretKey))]
    case SSH(r) => [Some(Str(r.host)), Some(Num(r.port)), Some(Str(r.username)), OptStr(r.password), OptStr(r.key), OptStr(r.keyPassphrase)]
    case TencentCloud(r) => [Some(Str(r.secretId)), Some(Str(r.secretKey))]
    case UCloud(r) => [Some(Str(r.privateKey)), Some(Str(r.publicKey)), OptStr(r.projectId)]
    case VolcEngine(r) => [Some(Str(r.accessKeyId)), Some(Str(r.secretAccessKey))]
    case Webhook(r) => [Some(Str(r.url))]
  }

  function OptStr(o: Option<string>): Option<Value> {
    match o
    case None => None
    case Some(s) => Some(Str(s))
  }

  function StrOf(v: Option<Value>): string
    requires v.Some? && v.value.Str?
  {
    v.value.s
  }

  function NumOf(v: Option<Value>): int
    requires v.Some? && v.value.Num?
  {
    v.value.n
  }

  function OptStrOf(v: Option<Value>): Option<string>
    requires v.Some? ==> v.value.Str?
  {
    match v
    case None => None
    case Some(x) => Some(x.s)
  }

  function BuildACMEHttpReq(vs: FieldValues): ACMEHttpReqConfig
    requires Matches(vs, ShapeOf(ForACMEHttpReq))
  {
    ACMEHttpReqConfig(StrOf(vs[0]), OptStrOf(vs[1]), OptStrOf(vs[2]), OptStrOf(vs[3]))
  }

  lemma ACMEHttpReqValuesBuild(r: ACMEHttpReqConfig)
    ensures Matches(ValuesOf(ACMEHttpReq(r)), ShapeOf(ForACMEHttpReq)) && BuildACMEHttpReq(ValuesOf(ACMEHttpReq(r))) == r
  {
  }

  lemma ACMEHttpReqValuesMatch(r: ACMEHttpReqConfig)
    ensures Matches(ValuesOf(ACMEHttpReq(r)), ShapeOf(ForACMEHttpReq)) && DistinctNames(ShapeOf(ForACMEHttpReq))
    ensures Build(ForACMEHttpReq, ValuesOf(ACMEHttpReq(r))) == ACMEHttpReq(r)
  {
    ACMEHttpReqValuesBuild(r);
    assert DistinctNames(ACMEHttpReqShape);
  }

  function BuildAliyun(vs: FieldValues): AliyunConfig
    requires Matches(vs, ShapeOf(ForAliyun))
  {
    AliyunConfig(StrOf(vs[0]), StrOf(vs[1]))
  }

  lemma AliyunValuesBuild(r: AliyunConfig)
    ensures Matches(ValuesOf(Aliyun(r)), ShapeOf(ForAliyun)) && BuildAliyun(ValuesOf(Aliyun(r))) == r
  {
  }

  lemma AliyunValuesMatch(r: AliyunConfig)
    ensures Matches(ValuesOf(Aliyun(r)), ShapeOf(ForAliyun)) && DistinctNames(ShapeOf(ForAliyun))
    ensures Build(ForAliyun, ValuesOf(Aliyun(r))) == Aliyun(r)
  {
    AliyunValuesBuild(r);
    assert DistinctNames(AliyunShape);
  }

  function BuildAWS(vs: FieldValues): AWSConfig
    requires Matches(vs, ShapeOf(ForAWS))
  {
    AWSConfig(StrOf(vs[0]), StrOf(vs[1]))
  }

  lemma AWSValuesBuild(r: AWSConfig)
    ensures Matches(ValuesOf(AWS(r)), ShapeOf(ForAWS)) && BuildAWS(ValuesOf(AWS(r))) == r
  {
  }

  lemma AWSValuesMatch(r: AWSConfig)
    ensures Matches(ValuesOf(AWS(r)), ShapeOf(ForAWS)) && DistinctNames(ShapeOf(ForAWS))
    ensures Build(ForAWS, ValuesOf(AWS(r))) == AWS(r)
  {
    AWSValuesBuild(r);
    assert DistinctNames(AWSShape);
  }

  function BuildAzure(vs: FieldValues): AzureConfig
    requires Matches(vs, ShapeOf(ForAzure))
  {
    AzureConfig(StrOf(vs[0]), StrOf(vs[1]), StrOf(vs[2]), OptStrOf(vs[3]))
  }

  lemma AzureValuesBuild(r: AzureConfig)
    ensures Matches(ValuesOf(Azure(r)), ShapeOf(ForAzure)) && BuildAzure(ValuesOf(Azure(r))) == r
  {
  }

  lemma AzureValuesMatch(r: AzureConfig)
    ensures Matches(ValuesOf(Azure(r)), ShapeOf(ForAzure)) && DistinctNames(ShapeOf(ForAzure))
    ensures Build(ForAzure, ValuesOf(Azure(r))) == Azure(r)
  {
    AzureValuesBuild(r);
    assert DistinctNames(AzureShape);
  }

  function BuildBaiduCloud(vs: FieldValues): BaiduCloudConfig
    requires Matches(vs, ShapeOf(ForBaiduCloud))
  {
    BaiduCloudConfig(StrOf(vs[0]), StrOf(vs[1]))
  }

  lemma BaiduCloudValuesBuild(r: BaiduCloudConfig)
    ensures Matches(ValuesOf(BaiduCloud(r)), ShapeOf(ForBaiduCloud)) && BuildBaiduCloud(ValuesOf(BaiduCloud(r))) == r
  {
  }

  lemma BaiduCloudValuesMatch(r: BaiduCloudConfig)
    ensures Matches(ValuesOf(BaiduCloud(r)), ShapeOf(ForBaiduCloud)) && DistinctNames(ShapeOf(ForBaiduCloud))
    ensures Build(ForBaiduCloud, ValuesOf(BaiduCloud(r))) == BaiduCloud(r)
  {
    BaiduCloudValuesBuild(r);
    assert DistinctNames(BaiduCloudShape);
  }

  function BuildBytePlus(vs: FieldValues): BytePlusConfig
    requires Matches(vs, ShapeOf(ForBytePlus))
  {
    BytePlusConfig(StrOf(vs[0]), StrOf(vs[1]))
  }

  lemma BytePlusValuesBuild(r: BytePlusConfig)
    ensures Matches(ValuesOf(BytePlus(r)), ShapeOf(ForBytePlus)) && BuildBytePlus(ValuesOf(BytePlus(r))) == r
  {
  }

  lemma BytePlusValuesMatch(r: BytePlusConfig)
    ensures Matches(ValuesOf(BytePlus(r)), ShapeOf(ForBytePlus)) && DistinctNames(ShapeOf(ForBytePlus))
    ensures Build(ForBytePlus, ValuesOf(BytePlus(r))) == BytePlus(r)
  {
    BytePlusValuesBuild(r);
    assert DistinctNames(BytePlusShape);
  }

  function BuildCloudflare(vs: FieldValues): CloudflareConfig
    requires Matches(vs, ShapeOf(ForCloudflare))
  {
    CloudflareConfig(StrOf(vs[0]))
  }

  lemma CloudflareValuesBuild(r: CloudflareConfig)
    ensures Matches(ValuesOf(Cloudflare(r)), ShapeOf(ForCloudflare)) && BuildCloudflare(ValuesOf(Cloudflare(r))) == r
  {
  }

  lemma CloudflareValuesMatch(r: CloudflareConfig)
    ensures Matches(ValuesOf(Cloudflare(r)), ShapeOf(ForCloudflare)) && DistinctNames(ShapeOf(ForCloudflare))
    ensures Build(ForCloudflare, ValuesOf(Cloudflare(r))) == Cloudflare(r)
  {
    CloudflareValuesBuild(r);
    assert DistinctNames(CloudflareShape);
  }

  function BuildDogeCloud(vs: FieldValues): DogeCloudConfig
    requires Matches(vs, ShapeOf(ForDogeCloud))
  {
    DogeCloudConfig(StrOf(vs[0]), StrOf(vs[1]))
  }

  lemma DogeCloudValuesBuild(r: DogeCloudConfig)
    ensures Matches(ValuesOf(DogeCloud(r)), ShapeOf(ForDogeCloud)) && BuildDogeCloud(ValuesOf(DogeCloud(r))) == r
  {
  }

  lemma DogeCloudValuesMatch(r: DogeCloudConfig)
    ensures Matches(ValuesOf(DogeCloud(r)), ShapeOf(ForDogeCloud)) && DistinctNames(ShapeOf(ForDogeCloud))
    ensures Build(ForDogeCloud, ValuesOf(DogeCloud(r))) == DogeCloud(r)
  {
    DogeCloudValuesBuild(r);
    assert DistinctNames(DogeCloudShape);
  }

  function BuildEdgio(vs: FieldValues): EdgioConfig
    requires Matches(vs, ShapeOf(ForEdgio))
  {
    EdgioConfig(StrOf(vs[0]), StrOf(vs[1]))
  }

  lemma EdgioValuesBuild(r: EdgioConfig)
    ensures Matches(ValuesOf(Edgio(r)), ShapeOf(ForEdgio)) && BuildEdgio(ValuesOf(Edgio(r))) == r
  {
  }

  lemma EdgioValuesMatch(r: EdgioConfig)
    ensures Matches(ValuesOf(Edgio(r)), ShapeOf(ForEdgio)) && DistinctNames(ShapeOf(ForEdgio))
    ensures Build(ForEdgio, ValuesOf(Edgio(r))) == Edgio(r)
  {
    EdgioValuesBuild(r);
    assert DistinctNames(EdgioShape);
  }

  function BuildGoDaddy(vs: FieldValues): GoDaddyConfig
    requires Matches(vs, ShapeOf(ForGoDaddy))
  {
    GoDaddyConfig(StrOf(vs[0]), StrOf(vs[1]))
  }

  lemma GoDaddyValuesBuild(r: GoDaddyConfig)
    ensures Matches(ValuesOf(GoDaddy(r)), ShapeOf(ForGoDaddy)) && BuildGoDaddy(ValuesOf(GoDaddy(r))) == r
  {
  }

  lemma GoDaddyValuesMatch(r: GoDaddyConfig)
    ensures Matches(ValuesOf(GoDaddy(r)), ShapeOf(ForGoDaddy)) && DistinctNames(ShapeOf(ForGoDaddy))
    ensures Build(ForGoDaddy, ValuesOf(GoDaddy(r))) == GoDaddy(r)
  {
    GoDaddyValuesBuild(r);
    assert DistinctNames(GoDaddyShape);
  }

  function BuildHuaweiCloud(vs: FieldValues): HuaweiCloudConfig
    requires Matches(vs, ShapeOf(ForHuaweiCloud))
  {
    HuaweiCloudConfig(StrOf(vs[0]), StrOf(vs[1]))
  }

  lemma HuaweiCloudValuesBuild(r: HuaweiCloudConfig)
    ensures Matches(ValuesOf(HuaweiCloud(r)), ShapeOf(ForHuaweiCloud)) && BuildHuaweiCloud(ValuesOf(HuaweiCloud(r))) == r
  {
  }

  lemma HuaweiCloudValuesMatch(r: HuaweiCloudConfig)
    ensures Matches(ValuesOf(HuaweiCloud(r)), ShapeOf(ForHuaweiCloud)) && DistinctNames(ShapeOf(ForHuaweiCloud))
    ensures Build(ForHuaweiCloud, ValuesOf(HuaweiCloud(r))) == HuaweiCloud(r)
  {
    HuaweiCloudValuesBuild(r);
    assert DistinctNames(HuaweiCloudShape);
  }

  function BuildKubernetes(vs: FieldValues): KubernetesConfig
    requires Matches(vs, ShapeOf(ForKubernetes))
  {
    KubernetesConfig(OptStrOf(vs[0]))
  }

  lemma KubernetesValuesBuild(r: KubernetesConfig)
    ensures Matches(ValuesOf(Kubernetes(r)), ShapeOf(ForKubernetes)) && BuildKubernetes(ValuesOf(Kubernetes(r))) == r
  {
  }

  lemma KubernetesValuesMatch(r: KubernetesConfig)
    ensures Matches(ValuesOf(Kubernetes(r)), ShapeOf(ForKubernetes)) && DistinctNames(ShapeOf(ForKubernetes))
    ensures Build(ForKubernetes, ValuesOf(Kubernetes(r))) == Kubernetes(r)
  {
    KubernetesValuesBuild(r);
    assert DistinctNames(KubernetesShape);
  }

  function BuildNameDotCom(vs: FieldValues): NameDotComConfig
    requires Matches(vs, ShapeOf(ForNameDotCom))
  {
    NameDotComConfig(StrOf(vs[0]), StrOf(vs[1]))
  }

  lemma NameDotComValuesBuild(r: NameDotComConfig)
    ensures Matches(ValuesOf(NameDotCom(r)), ShapeOf(ForNameDotCom)) && BuildNameDotCom(ValuesOf(NameDotCom(r))) == r
  {
  }

  lemma NameDotComValuesMatch(r: NameDotComConfig)
    ensures Matches(ValuesOf(NameDotCom(r)), ShapeOf(ForNameDotCom)) && DistinctNames(ShapeOf(ForNameDotCom))
    ensures Build(ForNameDotCom, ValuesOf(NameDotCom(r))) == NameDotCom(r)
  {
    NameDotComValuesBuild(r);
    assert DistinctNames(NameDotComShape);
  }

  function BuildNameSilo(vs: FieldValues): NameSiloConfig
    requires Matches(vs, ShapeOf(ForNameSilo))
  {
    NameSiloConfig(StrOf(vs[0]))
  }

  lemma NameSiloValuesBuild(r: NameSiloConfig)
    ensures Matches(ValuesOf(NameSilo(r)), ShapeOf(ForNameSilo)) && BuildNameSilo(ValuesOf(NameSilo(r))) == r
  {
  }

  lemma NameSiloValuesMatch(r: NameSiloConfig)
    ensures Matches(ValuesOf(NameSilo(r)), ShapeOf(ForNameSilo)) && DistinctNames(ShapeOf(ForNameSilo))
    ensures Build(ForNameSilo, ValuesOf(NameSilo(r))) == NameSilo(r)
  {
    NameSiloValuesBuild(r);
    assert DistinctNames(NameSiloShape);
  }

  function BuildPowerDNS(vs: FieldValues): PowerDNSConfig
    requires Matches(vs, ShapeOf(ForPowerDNS))
  {
    PowerDNSConfig(StrOf(vs[0]), StrOf(vs[1]))
  }

  lemma PowerDNSValuesBuild(r: PowerDNSConfig)
    ensures Matches(ValuesOf(PowerDNS(r)), ShapeOf(ForPowerDNS)) && BuildPowerDNS(ValuesOf(PowerDNS(r))) == r
  {
  }

  lemma PowerDNSValuesMatch(r: PowerDNSConfig)
    ensures Matches(ValuesOf(PowerDNS(r)), ShapeOf(ForPowerDNS)) && DistinctNames(ShapeOf(ForPowerDNS))
    ensures Build(ForPowerDNS, ValuesOf(PowerDNS(r))) == PowerDNS(r)
  {
    PowerDNSValuesBuild(r);
    assert DistinctNames(PowerDNSShape);
  }

  function BuildQiniu(vs: FieldValues): QiniuConfig
    requires Matches(vs, ShapeOf(ForQiniu))
  {
    QiniuConfig(StrOf(vs[0]), StrOf(vs[1]))
  }

  lemma QiniuValuesBuild(r: QiniuConfig)
    ensures Matches(ValuesOf(Qiniu(r)), ShapeOf(ForQiniu)) && BuildQiniu(ValuesOf(Qiniu(r))) == r
  {
  }

  lemma QiniuValuesMatch(r: QiniuConfig)
    ensures Matches(ValuesOf(Qiniu(r)), ShapeOf(ForQiniu)) && DistinctNames(ShapeOf(ForQiniu))
    ensures Build(ForQiniu, ValuesOf(Qiniu(r))) == Qiniu(r)
  {
    QiniuValuesBuild(r);
    assert DistinctNames(QiniuShape);
  }

  function BuildSSH(vs: FieldValues): SSHConfig
    requires Matches(vs, ShapeOf(ForSSH))
  {
    SSHConfig(StrOf(vs[0]), NumOf(vs[1]), StrOf(vs[2]), OptStrOf(vs[3]), OptStrOf(vs[4]), OptStrOf(vs[5]))
  }

  lemma SSHValuesBuild(r: SSHConfig)
    ensures Matches(ValuesOf(SSH(r)), ShapeOf(ForSSH)) && BuildSSH(ValuesOf(SSH(r))) == r
  {
  }

  lemma SSHValuesMatch(r: SSHConfig)
    ensures Matches(ValuesOf(SSH(r)), ShapeOf(ForSSH)) && DistinctNames(ShapeOf(ForSSH))
    ensures Build(ForSSH, ValuesOf(SSH(r))) == SSH(r)
  {
    SSHValuesBuild(r);
    assert DistinctNames(SSHShape);
  }

  function BuildTencentCloud(vs: FieldValues): TencentCloudConfig
    requires Matches(vs, ShapeOf(ForTencentCloud))
  {
    TencentCloudConfig(StrOf(vs[0]), StrOf(vs[1]))
  }

  lemma TencentCloudValuesBuild(r: TencentCloudConfig)
    ensures Matches(ValuesOf(TencentCloud(r)), ShapeOf(ForTencentCloud)) && BuildTencentCloud(ValuesOf(TencentCloud(r))) == r
  {
  }

  lemma TencentCloudValuesMatch(r: TencentCloudConfig)
    ensures Matches(ValuesOf(TencentCloud(r)), ShapeOf(ForTencentCloud)) && DistinctNames(ShapeOf(ForTencentCloud))
    ensures Build(ForTencentCloud, ValuesOf(TencentCloud(r))) == TencentCloud(r)
  {
    TencentCloudValuesBuild(r);
    assert DistinctNames(TencentCloudShape);
  }

  function BuildUCloud(vs: FieldValues): UCloudConfig
    requires Matches(vs, ShapeOf(ForUCloud))
  {
    UCloudConfig(StrOf(vs[0]), StrOf(vs[1]), OptStrOf(vs[2]))
  }

  lemma UCloudValuesBuild(r: UCloudConfig)
    ensures Matches(ValuesOf(UCloud(r)), ShapeOf(ForUCloud)) && BuildUCloud(ValuesOf(UCloud(r))) == r
  {
  }

  lemma UCloudValuesMatch(r: UCloudConfig)
    ensures Matches(ValuesOf(UCloud(r)), ShapeOf(ForUCloud)) && DistinctNames(ShapeOf(ForUCloud))
    ensures Build(ForUCloud, ValuesOf(UCloud(r))) == UCloud(r)
  {
    UCloudValuesBuild(r);
    assert DistinctNames(UCloudShape);
  }

  function BuildVolcEngine(vs: FieldValues): VolcEngineConfig
    requires Matches(vs, ShapeOf(ForVolcEngine))
  {
    VolcEngineConfig(StrOf(vs[0]), StrOf(vs[1]))
  }

  lemma VolcEngineValuesBuild(r: VolcEngineConfig)
    ensures Matches(ValuesOf(VolcEngine(r)), ShapeOf(ForVolcEngine)) && BuildVolcEngine(ValuesOf(VolcEngine(r))) == r
  {
  }

  lemma VolcEngineValuesMatch(r: VolcEngineConfig)
    ensures Matches(ValuesOf(VolcEngine(r)), ShapeOf(ForVolcEngine)) && DistinctNames(ShapeOf(ForVolcEngine))
    ensures Build(ForVolcEngine, ValuesOf(VolcEngine(r))) == VolcEngine(r)
  {
    VolcEngineValuesBuild(r);
    assert DistinctNames(VolcEngineShape);
  }

  function BuildWebhook(vs: FieldValues): WebhookConfig
    requires Matches(vs, ShapeOf(ForWebhook))
  {
    WebhookConfig(StrOf(vs[0]))
  }

  lemma WebhookValuesBuild(r: WebhookConfig)
    ensures Matches(ValuesOf(Webhook(r)), ShapeOf(ForWebhook)) && BuildWebhook(ValuesOf(Webhook(r))) == r
  {
  }

  lemma WebhookValuesMatch(r: WebhookConfig)
    ensures Matches(ValuesOf(Webhook(r)), ShapeOf(ForWebhook)) && DistinctNames(ShapeOf(ForWebhook))
    ensures Build(ForWebhook, ValuesOf(Webhook(r))) == Webhook(r)
  {
    WebhookValuesBuild(r);
    assert DistinctNames(WebhookShape);
  }

  lemma ConfigTypeOfTagGroup0(t: ConfigType)
    requires t == ForACMEHttpReq || t == ForAliyun || t == ForAWS || t == ForAzure
    ensures ConfigTypeOf(ProviderTag(t)) == Some(t)
  {
  }

  lemma ConfigTypeOfTagGroup1(t: ConfigType)
    requires t == ForBaiduCloud || t == ForBytePlus || t == ForCloudflare || t == ForDogeCloud
    ensures ConfigTypeOf(ProviderTag(t)) == Some(t)
  {
  }

  lemma ConfigTypeOfTagGroup2(t: ConfigType)
    requires t == ForEdgio || t == ForGoDaddy || t == ForHuaweiCloud || t == ForKubernetes
    ensures ConfigTypeOf(ProviderTag(t)) == Some(t)
  {
  }

  lemma ConfigTypeOfTagGroup3(t: ConfigType)
    requires t == ForLocal || t == ForNameDotCom || t == ForNameSilo || t == ForPowerDNS
    ensures ConfigTypeOf(ProviderTag(t)) == Some(t)
  {
  }

  lemma ConfigTypeOfTagGroup4(t: ConfigType)
    requires t == ForQiniu || t == ForSSH || t == ForTencentCloud || t == ForUCloud
    ensures ConfigTypeOf(ProviderTag(t)) == Some(t)
  {
  }

  lemma ConfigTypeOfTagGroup5(t: ConfigType)
    requires t == ForVolcEngine || t == ForWebhook
    ensures ConfigTypeOf(ProviderTag(t)) == Some(t)
  {
  }

  lemma ValuesOfMatchGroup0(c: AccessConfig)
    requires c.ACMEHttpReq? || c.Aliyun? || c.AWS? || c.Azure? || c.BaiduCloud? || c.BytePlus?
    ensures Matches(ValuesOf(c), ShapeOf(TypeOf(c)))
    ensures DistinctNames(ShapeOf(TypeOf(c)))
    ensures Build(TypeOf(c), ValuesOf(c)) == c
  {
    match c
    case ACMEHttpReq(r) => ACMEHttpReqValuesMatch(r);
    case Aliyun(r) => AliyunValuesMatch(r);
    case AWS(r) => AWSValuesMatch(r);
    case Azure(r) => AzureValuesMatch(r);
    case BaiduCloud(r) => BaiduCloudValuesMatch(r);
    case BytePlus(r) => BytePlusValuesMatch(r);
  }

  lemma ValuesOfMatchGroup1(c: AccessConfig)
    requires c.Cloudflare? || c.DogeCloud? || c.Edgio? || c.GoDaddy? || c.HuaweiCloud? || c.Kubernetes?
    ensures Matches(ValuesOf(c), ShapeOf(TypeOf(c)))
    ensures DistinctNames(ShapeOf(TypeOf(c)))
    ensures Build(TypeOf(c), ValuesOf(c)) == c
  {
    match c
    case Cloudflare(r) => CloudflareValuesMatch(r);
    case DogeCloud(r) => DogeCloudValuesMatch(r);
    case Edgio(r) => EdgioValuesMatch(r);
    case GoDaddy(r) => GoDaddyValuesMatch(r);
    case HuaweiCloud(r) => HuaweiCloudValuesMatch(r);
    case Kubernetes(r) => KubernetesValuesMatch(r);
  }

  lemma ValuesOfMatchGroup2(c: AccessConfig)
    requires c.Local? || c.NameDotCom? || c.NameSilo? || c.PowerDNS? || c.Qiniu? || c.SSH?
    ensures Matches(ValuesOf(c), ShapeOf(TypeOf(c)))
    ensures DistinctNames(ShapeOf(TypeOf(c)))
    ensures Build(TypeOf(c), ValuesOf(c)) == c
  {
    match c
    case Local(_) =>
    case NameDotCom(r) => NameDotComValuesMatch(r);
    case NameSilo(r) => NameSiloValuesMatch(r);
    case PowerDNS(r) => PowerDNSValuesMatch(r);
    case Qiniu(r) => QiniuValuesMatch(r);
    case SSH(r) => SSHValuesMatch(r);
  }

  lemma ValuesOfMatchGroup3(c: AccessConfig)
    requires c.TencentCloud? || c.UCloud? || c.VolcEngine? || c.Webhook?
    ensures Matches(ValuesOf(c), ShapeOf(TypeOf(c)))
    ensures DistinctNames(ShapeOf(TypeOf(c)))
    ensures Build(TypeOf(c), ValuesOf(c)) == c
  {
    match c
    case TencentCloud(r) => TencentCloudValuesMatch(r);
    case UCloud(r) => UCloudValuesMatch(r);
    case VolcEngine(r) => VolcEngineValuesMatch(r);
    case Webhook(r) => WebhookValuesMatch(r);
  }

  function BuildGroup0(t: ConfigType, vs: FieldValues): (c: AccessConfig)
    requires t.ForACMEHttpReq? || t.ForAliyun? || t.ForAWS?
    requires Matches(vs, ShapeOf(t))
    ensures TypeOf(c) == t
  {
    match t
    case ForACMEHttpReq => ACMEHttpReq(BuildACMEHttpReq(vs))
    case ForAliyun => Aliyun(BuildAliyun(vs))
    case ForAWS => AWS(BuildAWS(vs))
  }

  function BuildGroup1(t: ConfigType, vs: FieldValues): (c: AccessConfig)
    requires t.ForAzure? || t.ForBaiduCloud? || t.ForBytePlus?
    requires Matches(vs, ShapeOf(t))
    ensures TypeOf(c) == t
  {
    match t
    case ForAzure => Azure(BuildAzure(vs))
    case ForBaiduCloud => BaiduCloud(BuildBaiduCloud(vs))
    case ForBytePlus => BytePlus(BuildBytePlus(vs))
  }

  function BuildGroup2(t: ConfigType, vs: FieldValues): (c: AccessConfig)
    requires t.ForCloudflare? || t.ForDogeCloud? || t.ForEdgio?
    requires Matches(vs, ShapeOf(t))
    ensures TypeOf(c) == t
  {
    match t
    case ForCloudflare => Cloudflare(BuildCloudflare(vs))
    case ForDogeCloud => DogeCloud(BuildDogeCloud(vs))
    case ForEdgio => Edgio(BuildEdgio(vs))
  }

  function BuildGroup3(t: ConfigType, vs: FieldValues): (c: AccessConfig)
    requires t.ForGoDaddy? || t.ForHuaweiCloud? || t.ForKubernetes?
    requires Matches(vs, ShapeOf(t))
    ensures TypeOf(c) == t
  {
    match t
    case ForGoDaddy => GoDaddy(BuildGoDaddy(vs))
    case ForHuaweiCloud => HuaweiCloud(BuildHuaweiCloud(vs))
    case ForKubernetes => Kubernetes(BuildKubernetes(vs))
  }

  function BuildGroup4(t: ConfigType, vs: FieldValues): (c: AccessConfig)
    requires t.ForLocal? || t.ForNameDotCom? || t.ForNameSilo?
    requires Matches(vs, ShapeOf(t))
    ensures TypeOf(c) == t
  {
    match t
    case ForLocal => Local(LocalConfig)
    case ForNameDotCom => NameDotCom(BuildNameDotCom(vs))
    case ForNameSilo => NameSilo(BuildNameSilo(vs))
  }

  function BuildGroup5(t: ConfigType, vs: FieldValues): (c: AccessConfig)
    requires t.ForPowerDNS? || t.ForQiniu? || t.ForSSH?
    requires Matches(vs, ShapeOf(t))
    ensures TypeOf(c) == t
  {
    match t
    case ForPowerDNS => PowerDNS(BuildPowerDNS(vs))
    case ForQiniu => Qiniu(BuildQiniu(vs))
    case ForSSH => SSH(BuildSSH(vs))
  }

  function BuildGroup6(t: ConfigType, vs: FieldValues): (c: AccessConfig)
    requires t.ForTencentCloud? || t.ForUCloud? || t.ForVolcEngine?
    requires Matches(vs, ShapeOf(t))
    ensures TypeOf(c) == t
  {
    match t
    case ForTencentCloud => TencentCloud(BuildTencentCloud(vs))
    case ForUCloud => UCloud(BuildUCloud(vs))
    case ForVolcEngine => VolcEngine(BuildVolcEngine(vs))
  }

  function BuildGroup7(t: ConfigType, vs: FieldValues): (c: AccessConfig)
    requires t.ForWebhook?
    requires Matches(vs, ShapeOf(t))
    ensures TypeOf(c) == t
  {
    match t
    case ForWebhook => Webhook(BuildWebhook(vs))
  }

  /** The typed config of type t built from values that match t's shape. */
  function Build(t: ConfigType, vs: FieldValues): (c: AccessConfig)
    requires Matches(vs, ShapeOf(t))
    ensures TypeOf(c) == t
  {
    match t
    case ForACMEHttpReq | ForAliyun | ForAWS => BuildGroup0(t, vs)
    case ForAzure | ForBaiduCloud | ForBytePlus => BuildGroup1(t, vs)
    case ForCloudflare | ForDogeCloud | ForEdgio => BuildGroup2(t, vs)
    case ForGoDaddy | ForHuaweiCloud | ForKubernetes => BuildGroup3(t, vs)
    case ForLocal | ForNameDotCom | ForNameSilo => BuildGroup4(t, vs)
    case ForPowerDNS | ForQiniu | ForSSH => BuildGroup5(t, vs)
    case ForTencentCloud | ForUCloud | ForVolcEngine => BuildGroup6(t, vs)
    case ForWebhook => BuildGroup7(t, vs)
  }

  /** The values of every typed config match its shape, whose names are distinct, and build it back. */
  lemma ValuesOfMatch(c: AccessConfig)
    ensures Matches(ValuesOf(c), ShapeOf(TypeOf(c)))
    ensures DistinctNames(ShapeOf(TypeOf(c)))
    ensures Build(TypeOf(c), ValuesOf(c)) == c
  {
    if c.ACMEHttpReq? || c.Aliyun? || c.AWS? || c.Azure? || c.BaiduCloud? || c.BytePlus? {
      ValuesOfMatchGroup0(c);
    } else if c.Cloudflare? || c.DogeCloud? || c.Edgio? || c.GoDaddy? || c.HuaweiCloud? || c.Kubernetes? {
      ValuesOfMatchGroup1(c);
    } else if c.Local? || c.NameDotCom? || c.NameSilo? || c.PowerDNS? || c.Qiniu? || c.SSH? {
      ValuesOfMatchGroup2(c);
    } else {
      ValuesOfMatchGroup3(c);
    }
  }

  // ---------------------------------------------------------------------------
  // Decoding and encoding

  /** The typed config of a provider read out of a config object, if the object has its type. */
  function Decode(provider: string, obj: Obj): (r: Option<AccessConfig>)
    ensures r.Some? ==> ProviderOf(r.value) == provider
  {
    var t :- ConfigTypeOf(provider);
    var vs :- ReadShape(obj, ShapeOf(t));
    Some(Build(t, vs))
  }

  /** The config object holding a typed config's present properties and nothing else. */
  function Encode(c: AccessConfig): (obj: Obj)
    ensures obj.Keys <= Names(ShapeOf(TypeOf(c)))
  {
    ObjectOf(ShapeOf(TypeOf(c)), ValuesOf(c))
  }

  /** Decoding succeeds exactly for a provider with a config type and an object of that type. */
  lemma DecodeIffConforms(provider: string, obj: Obj)
    ensures Decode(provider, obj).Some? <==>
      ConfigTypeOf(provider).Some? && Conforms(obj, ShapeOf(ConfigTypeOf(provider).value))
  {
    if ConfigTypeOf(provider).Some? {
      ReadShapeIffConforms(obj, ShapeOf(ConfigTypeOf(provider).value));
    }
  }

  /** Encoding and decoding under the config's own provider gives the config back. */
  lemma DecodeEncode(c: AccessConfig)
    ensures Decode(ProviderOf(c), Encode(c)) == Some(c)
  {
    ValuesOfMatch(c);
    ConfigTypeOfTag(TypeOf(c));
    ReadObjectOf(ShapeOf(TypeOf(c)), ValuesOf(c));
  }

  /** Keys outside the provider's config type are tolerated and ignored. */
  lemma DecodeIgnoresOtherKeys(provider: string, obj: Obj, extra: Obj)
    requires ConfigTypeOf(provider).Some? ==> extra.Keys !! Names(ShapeOf(ConfigTypeOf(provider).value))
    ensures Decode(provider, obj + extra) == Decode(provider, obj)
  {
    if ConfigTypeOf(provider).Some? {
      ReadShapeIgnoresOtherKeys(obj, extra, ShapeOf(ConfigTypeOf(provider).value));
    }
  }

  /** An encoded config only has keys of its own config type. */
  lemma EncodeHasOnlyItsKeys(c: AccessConfig)
    ensures Encode(c).Keys <= Names(ShapeOf(TypeOf(c)))
  {
  }

  /**
   * An encoded config conforms to its own member of the union, and so has the type
   * of `config` through that member (and not only through Local's `NonNullable<unknown>`).
   */
  lemma EncodeInConfigUnion(c: AccessConfig)
    ensures Conforms(Encode(c), ShapeOf(TypeOf(c)))
    ensures InConfigUnion(Encode(c))
  {
    ValuesOfMatch(c);
    ReadObjectOf(ShapeOf(TypeOf(c)), ValuesOf(c));
    ReadShapeIffConforms(Encode(c), ShapeOf(TypeOf(c)));
    UnionHasEveryShape(TypeOf(c));
  }

  /**
   * AccessConfigForLocal is `NonNullable<unknown>`, which every object satisfies, so
   * the union constrains nothing: every object has the type of `config`.
   */
  lemma EveryObjectInConfigUnion(obj: Obj)
    ensures InConfigUnion(obj)
  {
    assert ConfigUnion[12] == LocalShape;
    assert Conforms(obj, ConfigUnion[12]);
  }

  /** AccessConfigForNS1 is left out of the union, but has the same shape as AccessConfigForNameSilo. */
  lemma NS1ShapedAsNameSilo(obj: Obj)
    ensures NS1Shape == NameSiloShape
    ensures ConfigTypeOf("ns1") == None
    ensures Conforms(obj, NS1Shape) ==> InConfigUnion(obj)
  {
    assert ConfigUnion[14] == NameSiloShape;
  }

  /** Every tag of a union member is an access-provider tag, and only `ns1` has no member. */
  lemma {:induction false} UnionCoversAccessProviders(provider: string)
    ensures ConfigTypeOf(provider).Some? ==> provider in Providers.AccessProviders
    ensures provider in Providers.AccessProviders && provider != "ns1" ==> ConfigTypeOf(provider).Some?
  {
    if provider == "acmehttpreq" {
      assert provider in Providers.AccessProvidersPart0;
    } else if provider == "aliyun" {
      assert provider in Providers.AccessProvidersPart0;
    } else if provider == "aws" {
      assert provider in Providers.AccessProvidersPart0;
    } else if provider == "azure" {
      assert provider in Providers.AccessProvidersPart0;
    } else if provider == "baiducloud" {
      assert provider in Providers.AccessProvidersPart0;
    } else if provider == "byteplus" {
      assert provider in Providers.AccessProvidersPart0;
    } else if provider == "cloudflare" {
      assert provider in Providers.AccessProvidersPart0;
    } else if provider == "dogecloud" {
      assert provider in Providers.AccessProvidersPart0;
    } else if provider == "edgio" {
      assert provider in Providers.AccessProvidersPart1;
    } else if provider == "godaddy" {
      assert provider in Providers.AccessProvidersPart1;
    } else if provider == "huaweicloud" {
      assert provider in Providers.AccessProvidersPart1;
    } else if provider == "k8s" {
      assert provider in Providers.AccessProvidersPart1;
    } else if provider == "local" {
      assert provider in Providers.AccessProvidersPart1;
    } else if provider == "namedotcom" {
      assert provider in Providers.AccessProvidersPart1;
    } else if provider == "namesilo" {
      assert provider in Providers.AccessProvidersPart1;
    } else if provider == "powerdns" {
      assert provider in Providers.AccessProvidersPart2;
    } else if provider == "qiniu" {
      assert provider in Providers.AccessProvidersPart2;
    } else if provider == "ssh" {
      assert provider in Providers.AccessProvidersPart2;
    } else if provider == "tencentcloud" {
      assert provider in Providers.AccessProvidersPart2;
    } else if provider == "ucloud" {
      assert provider in Providers.AccessProvidersPart2;
    } else if provider == "volcengine" {
      assert provider in Providers.AccessProvidersPart2;
    } else if provider == "webhook" {
      assert provider in Providers.AccessProvidersPart2;
    } else if provider in Providers.AccessProviders {
      assert provider in Providers.AccessProvidersPart0 || provider in Providers.AccessProvidersPart1
        || provider in Providers.AccessProvidersPart2;
    }
  }

  /** ACMEHttpReq requires endpoint; mode, username and password are optional strings. */
  lemma ACMEHttpReqConfigType(obj: Obj)
    ensures Conforms(obj, ACMEHttpReqShape) <==> (
      && "endpoint" in obj && obj["endpoint"].Str?
      && ("mode" in obj ==> obj["mode"].Str?)
      && ("username" in obj ==> obj["username"].Str?)
      && ("password" in obj ==> obj["password"].Str?))
  {
    assert Conforms(obj, ACMEHttpReqShape) ==> FieldConforms(obj, ACMEHttpReqShape[0]) && FieldConforms(obj, ACMEHttpReqShape[1]) && FieldConforms(obj, ACMEHttpReqShape[2]) && FieldConforms(obj, ACMEHttpReqShape[3]);
  }

  /** Azure requires tenantId, clientId and clientSecret; environment is an optional string. */
  lemma AzureConfigType(obj: Obj)
    ensures Conforms(obj, AzureShape) <==> (
      && "tenantId" in obj && obj["tenantId"].Str?
      && "clientId" in obj && obj["clientId"].Str?
      && "clientSecret" in obj && obj["clientSecret"].Str?
      && ("environment" in obj ==> obj["environment"].Str?))
  {
    assert Conforms(obj, AzureShape) ==> FieldConforms(obj, AzureShape[0]) && FieldConforms(obj, AzureShape[1]) && FieldConforms(obj, AzureShape[2]) && FieldConforms(obj, AzureShape[3]);
  }

  /** The Kubernetes kubeConfig is an optional string. */
  lemma KubernetesConfigType(obj: Obj)
    ensures Conforms(obj, KubernetesShape) <==> (
      && ("kubeConfig" in obj ==> obj["kubeConfig"].Str?))
  {
    assert Conforms(obj, KubernetesShape) ==> FieldConforms(obj, KubernetesShape[0]);
  }

  /** The Local config type has no properties: every object has it. */
  lemma LocalConfigType(obj: Obj)
    ensures Conforms(obj, LocalShape)
  {
  }

  /** SSH requires host, a numeric port and username; password, key and keyPassphrase are optional strings. */
  lemma SSHConfigType(obj: Obj)
    ensures Conforms(obj, SSHShape) <==> (
      && "host" in obj && obj["host"].Str?
      && "port" in obj && obj["port"].Num?
      && "username" in obj && obj["username"].Str?
      && ("password" in obj ==> obj["password"].Str?)
      && ("key" in obj ==> obj["key"].Str?)
      && ("keyPassphrase" in obj ==> obj["keyPassphrase"].Str?))
  {
    assert Conforms(obj, SSHShape) ==> FieldConforms(obj, SSHShape[0]) && FieldConforms(obj, SSHShape[1]) && FieldConforms(obj, SSHShape[2]) && FieldConforms(obj, SSHShape[3]) && FieldConforms(obj, SSHShape[4]) && FieldConforms(obj, SSHShape[5]);
  }

  /** UCloud requires privateKey and publicKey; projectId is an optional string. */
  lemma UCloudConfigType(obj: Obj)
    ensures Conforms(obj, UCloudShape) <==> (
      && "privateKey" in obj && obj["privateKey"].Str?
      && "publicKey" in obj && obj["publicKey"].Str?
      && ("projectId" in obj ==> obj["projectId"].Str?))
  {
    assert Conforms(obj, UCloudShape) ==> FieldConforms(obj, UCloudShape[0]) && FieldConforms(obj, UCloudShape[1]) && FieldConforms(obj, UCloudShape[2]);
  }

}

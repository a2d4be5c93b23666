/**
 Names, labels, image references and ports: `internal/resources/common.go`.
 */
module Common {
  import opened Api
  import opened Text

  const FINALIZER := "db.tlndb.io/finalizer"
  const CONFIG_HASH_ANNOTATION := "db.tlndb.io/config-hash"
  const CONFIG_FILE_NAME := "config.yaml"
  const CONFIG_VOLUME := "config"
  const DATA_VOLUME := "data"
  const DEFAULT_GRPC_PORT := 9899
  const DEFAULT_HTTP_PORT := 8080
  const DEFAULT_METRICS_PORT := 9090

  // ---- Names ----------------------------------------------------------------

  function ConfigMapName(name: string): string { name + "-config" }
  function HeadlessServiceName(name: string): string { name + "-headless" }
  function LeaderName(name: string): string { name + "-leader" }
  function FollowerName(name: string): string { name + "-follower" }
  function ReadServiceName(name: string): string { name + "-read" }

  predicate Replicated(spec: Spec) { spec.mode == "replicated" }

  // ---- Footprints -----------------------------------------------------------

  /** Every key some spec of the instance can make the operator write or delete. */
  predicate InFootprint(namespace: string, name: string, key: Key) {
    key.namespace == namespace &&
    match key.kind
    case StatefulSet => key.name in {name, LeaderName(name), FollowerName(name)}
    case Service => key.name in {name, HeadlessServiceName(name), ReadServiceName(name)}
    case ConfigMap => key.name == ConfigMapName(name)
    case _ => key.name == name
  }

  /** One name is the other followed by a suffix the operator itself appends. */
  predicate SuffixRelated(a: string, b: string) {
    a in {LeaderName(b), FollowerName(b), ReadServiceName(b), HeadlessServiceName(b)} ||
    b in {LeaderName(a), FollowerName(a), ReadServiceName(a), HeadlessServiceName(a)}
  }

  lemma SameSuffix(a: string, b: string, s: string)
    requires a + s == b + s
    ensures a == b
  {
    assert |a| == |b|;
    assert (a + s)[..|a|] == a && (b + s)[..|b|] == b;
  }

  lemma DifferentEnding(a: string, b: string, s: string, t: string)
    requires s != [] && t != [] && s[|s|-1] != t[|t|-1]
    ensures a + s != b + t
  {
    assert (a + s)[|a + s| - 1] == s[|s|-1];
    assert (b + t)[|b + t| - 1] == t[|t|-1];
  }

  lemma SharedKeyIsSuffixRelated(namespace: string, a: string, b: string, key: Key)
    requires a != b && InFootprint(namespace, a, key) && InFootprint(namespace, b, key)
    ensures SuffixRelated(a, b)
  {
    if key.kind.StatefulSet? {
      if key.name == LeaderName(a) && key.name == LeaderName(b) { SameSuffix(a, b, "-leader"); }
      if key.name == FollowerName(a) && key.name == FollowerName(b) { SameSuffix(a, b, "-follower"); }
      assert "-leader"[5] == 'e' && "-follower"[7] == 'e';
      if key.name == LeaderName(a) && key.name == FollowerName(b) { LeaderIsNotFollower(a, b); }
      if key.name == FollowerName(a) && key.name == LeaderName(b) { LeaderIsNotFollower(b, a); }
    } else if key.kind.Service? {
      if key.name == ReadServiceName(a) && key.name == ReadServiceName(b) { SameSuffix(a, b, "-read"); }
      if key.name == HeadlessServiceName(a) && key.name == HeadlessServiceName(b) { SameSuffix(a, b, "-headless"); }
      if key.name == ReadServiceName(a) && key.name == HeadlessServiceName(b) { DifferentEnding(a, b, "-read", "-headless"); }
      if key.name == HeadlessServiceName(a) && key.name == ReadServiceName(b) { DifferentEnding(b, a, "-read", "-headless"); }
    } else if key.kind.ConfigMap? {
      SameSuffix(a, b, "-config");
    }
  }

  lemma LeaderIsNotFollower(a: string, b: string)
    ensures LeaderName(a) != FollowerName(b)
  {
    var s, t := LeaderName(a), FollowerName(b);
    assert s[|s|-4] == "-leader"[3];
    assert t[|t|-4] == "-follower"[5];
  }

  lemma SuffixRelatedSharesKey(namespace: string, a: string, b: string) returns (key: Key)
    requires SuffixRelated(a, b)
    ensures InFootprint(namespace, a, key) && InFootprint(namespace, b, key)
  {
    if a in {LeaderName(b), FollowerName(b)} {
      key := Key(StatefulSet, namespace, a);
    } else if a in {ReadServiceName(b), HeadlessServiceName(b)} {
      key := Key(Service, namespace, a);
    } else if b in {LeaderName(a), FollowerName(a)} {
      key := Key(StatefulSet, namespace, b);
    } else {
      key := Key(Service, namespace, b);
    }
  }

  /** Two instances of a namespace have disjoint footprints exactly when their names are not suffix-related. */
  lemma FootprintsDisjoint(namespace: string, a: string, b: string)
    requires a != b
    ensures (forall key :: !(InFootprint(namespace, a, key) && InFootprint(namespace, b, key))) <==> !SuffixRelated(a, b)
  {
    if SuffixRelated(a, b) {
      var key := SuffixRelatedSharesKey(namespace, a, b);
    } else {
      forall key ensures !(InFootprint(namespace, a, key) && InFootprint(namespace, b, key)) {
        if InFootprint(namespace, a, key) && InFootprint(namespace, b, key) {
          SharedKeyIsSuffixRelated(namespace, a, b, key);
        }
      }
    }
  }

  // ---- Labels ---------------------------------------------------------------

  const NAME_LABEL := "app.kubernetes.io/name"
  const INSTANCE_LABEL := "app.kubernetes.io/instance"
  const ROLE_LABEL := "db.tlndb.io/role"

  datatype RoleName = Standalone | Leader | Follower

  function RoleText(role: RoleName): string {
    match role
    case Standalone => "standalone"
    case Leader => "leader"
    case Follower => "follower"
  }

  function CommonLabels(name: string): StringMap {
    map[NAME_LABEL := "tln-db",
        INSTANCE_LABEL := name,
        "app.kubernetes.io/component" := "database",
        "app.kubernetes.io/part-of" := "tln-db",
        "app.kubernetes.io/managed-by" := "tln-db-operator"]
  }

  function SelectorLabels(name: string): StringMap {
    map[NAME_LABEL := "tln-db", INSTANCE_LABEL := name]
  }

  function RoleSelector(name: string, role: RoleName): StringMap {
    SelectorLabels(name)[ROLE_LABEL := RoleText(role)]
  }

  /** `for k, v := range over { base[k] = v }`: the loop behind `withRole`, the Service labels and the pod annotations. */
  method CopyInto(base: StringMap, over: StringMap) returns (merged: StringMap)
    ensures merged == base + over
  {
    merged := base;
    var left := over.Keys;
    CopyBegins(base, over);
    while left != {}
      invariant left <= over.Keys
      invariant merged == Copied(base, over, left)
      decreases |left|
    {
      var k :| k in left;
      CopiedOne(base, over, left, k);
      merged, left := merged[k := over[k]], left - {k};
    }
    CopyEnds(base, over);
  }

  /** The copy while some keys are still left. */
  function Copied(base: StringMap, over: StringMap, left: set<string>): StringMap { base + (over - left) }

  lemma CopyBegins(base: StringMap, over: StringMap)
    ensures Copied(base, over, over.Keys) == base
  {
    assert over - over.Keys == map[];
  }

  lemma CopyEnds(base: StringMap, over: StringMap)
    ensures Copied(base, over, {}) == base + over
  {
    assert over - {} == over;
  }

  lemma CopiedOne(base: StringMap, over: StringMap, left: set<string>, k: string)
    requires left <= over.Keys && k in left
    ensures Copied(base, over, left)[k := over[k]] == Copied(base, over, left - {k})
  {
  }

  /** A label selector: every required pair is present. */
  predicate Selects(selector: StringMap, labels: StringMap) {
    forall k | k in selector :: k in labels && labels[k] == selector[k]
  }

  lemma LabelKeysDiffer()
    ensures NAME_LABEL != INSTANCE_LABEL && INSTANCE_LABEL != ROLE_LABEL && ROLE_LABEL != NAME_LABEL
  {
    assert |NAME_LABEL| == 22 && |INSTANCE_LABEL| == 26 && |ROLE_LABEL| == 16;
  }

  lemma PodLabels(name: string, role: RoleName)
    ensures var l := WithRole(CommonLabels(name), role);
      NAME_LABEL in l && l[NAME_LABEL] == "tln-db" &&
      INSTANCE_LABEL in l && l[INSTANCE_LABEL] == name &&
      ROLE_LABEL in l && l[ROLE_LABEL] == RoleText(role)
  {
    LabelKeysDiffer();
    assert |INSTANCE_LABEL| == 26 && |NAME_LABEL| == 22;
    assert |"app.kubernetes.io/component"| == 27;
    assert |"app.kubernetes.io/part-of"| == 25;
    assert |"app.kubernetes.io/managed-by"| == 28;
  }

  function WithRole(base: StringMap, role: RoleName): StringMap { base[ROLE_LABEL := RoleText(role)] }

  /** Which pods each selector reaches: the instance always decides, the role only when the selector names one. */
  lemma SelectionIsExact(name: string, other: string, role: RoleName, podRole: RoleName)
    ensures Selects(RoleSelector(name, role), WithRole(CommonLabels(other), podRole)) <==> name == other && role == podRole
    ensures Selects(SelectorLabels(name), WithRole(CommonLabels(other), podRole)) <==> name == other
  {
    LabelKeysDiffer();
    PodLabels(other, podRole);
    var selector := RoleSelector(name, role);
    assert INSTANCE_LABEL in selector && selector[INSTANCE_LABEL] == name;
    assert ROLE_LABEL in selector && selector[ROLE_LABEL] == RoleText(role);
    assert INSTANCE_LABEL in SelectorLabels(name);
    assert |RoleText(role)| == |RoleText(podRole)| <==> role == podRole;
  }

  // ---- Image and ports ------------------------------------------------------

  function ImageRef(image: ImageSpec): string {
    var repo := if image.repository == "" then "ghcr.io/opentalon/tln-db" else image.repository;
    if image.digest != "" then repo + "@" + image.digest
    else repo + ":" + (if image.tag == "" then "latest" else image.tag)
  }

  /** `strconv.ParseInt(s, 10, 32)`; `None` is a syntax or range error. */
  function ParseInt32(s: string): Option<int> {
    var signed := s != [] && (s[0] == '+' || s[0] == '-');
    var digits := if signed then s[1..] else s;
    if digits == [] || !AllDigits(digits) then None
    else
      var magnitude: int := DigitsValue(digits);
      var value := if signed && s[0] == '-' then -magnitude else magnitude;
      if -0x8000_0000 <= value < 0x8000_0000 then Some(value) else None
  }

  function PortFromAddr(addr: string, def: int): int {
    var idx := LastColon(addr);
    if addr == "" || idx < 0 then def
    else match ParseInt32(addr[idx + 1..])
      case None => def
      case Some(p) => if p <= 0 || p > 65535 then def else p
  }

  /** The text after the last colon is an optionally plus-signed decimal of value `p`, a valid port. */
  ghost predicate NamesPort(addr: string, p: int) {
    1 <= p <= 65535 &&
    exists front: string, sign: string, digits: string ::
      Spelled(addr, front, sign, digits) && DigitsValue(digits) == p
  }

  ghost predicate Spelled(addr: string, front: string, sign: string, digits: string) {
    addr == front + ":" + (sign + digits) && sign in {"", "+"} && digits != [] && AllDigits(digits)
  }

  lemma SpelledParses(addr: string, front: string, sign: string, digits: string, def: int)
    requires Spelled(addr, front, sign, digits)
    ensures var p := DigitsValue(digits);
      PortFromAddr(addr, def) == if 1 <= p <= 65535 then p else def
  {
    var back := sign + digits;
    assert ':' !in back;
    LastColonOf(front, back);
    assert addr[|front| + 1..] == back;
    if sign == "+" {
      assert back[1..] == digits;
    } else {
      assert back == digits;
    }
  }

  lemma NamedPortIsSpelled(addr: string, def: int)
    requires PortFromAddr(addr, def) != def
    ensures NamesPort(addr, PortFromAddr(addr, def))
  {
    var idx := LastColon(addr);
    var front, back := addr[..idx], addr[idx + 1..];
    assert addr == front + ":" + back;
    var sign, digits := ParsedSpelling(back);
    assert Spelled(addr, front, sign, digits);
  }

  lemma ParsedSpelling(text: string) returns (sign: string, digits: string)
    requires ParseInt32(text).Some? && ParseInt32(text).value > 0
    ensures text == sign + digits && sign in {"", "+"} && digits != [] && AllDigits(digits)
    ensures DigitsValue(digits) == ParseInt32(text).value
  {
    if text[0] == '+' {
      sign, digits := "+", text[1..];
      assert text == [text[0]] + digits;
    } else {
      sign, digits := "", text;
      assert text == "" + digits;
    }
  }

  /** `PortFromAddr` answers `p` exactly when the address names `p`; otherwise the default. */
  lemma PortFromAddrExact(addr: string, def: int, p: int)
    ensures PortFromAddr(addr, def) == p <==> NamesPort(addr, p) || (p == def && forall q :: !NamesPort(addr, q))
  {
    forall q | NamesPort(addr, q) ensures PortFromAddr(addr, def) == q {
      var front, sign, digits :| Spelled(addr, front, sign, digits) && DigitsValue(digits) == q;
      SpelledParses(addr, front, sign, digits, def);
    }
    if PortFromAddr(addr, def) != def {
      NamedPortIsSpelled(addr, def);
    }
  }

  /** The port of a formatted address is the number that was formatted. */
  lemma FormattedPortParsesBack(host: string, p: int, def: int)
    requires 1 <= p <= 65535
    ensures PortFromAddr(host + ":" + Decimal(p), def) == p
  {
    assert "" + Decimal(p) == Decimal(p);
    assert Spelled(host + ":" + Decimal(p), host, "", Decimal(p));
    SpelledParses(host + ":" + Decimal(p), host, "", Decimal(p), def);
  }

  predicate MetricsEnabled(spec: Spec) { spec.metrics.enabled.None? || spec.metrics.enabled.value }

  function MetricsPort(spec: Spec): (p: nat)
    ensures p > 0
  {
    if spec.metrics.port > 0 then spec.metrics.port else DEFAULT_METRICS_PORT
  }

  function GrpcPort(spec: Spec): (p: int)
    ensures 1 <= p <= 65535
  {
    PortFromAddr(spec.config.tcp, DEFAULT_GRPC_PORT)
  }

  function HttpPort(spec: Spec): (p: int)
    ensures 1 <= p <= 65535
  {
    PortFromAddr(spec.config.http, DEFAULT_HTTP_PORT)
  }

  /** The address followers replicate from: the write Service's DNS name and gRPC port. */
  function LeaderAddr(inst: TlnDB): string {
    inst.name + "." + inst.namespace + ".svc.cluster.local" + ":" + Decimal(GrpcPort(inst.spec))
  }
}

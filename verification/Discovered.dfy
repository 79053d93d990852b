/** The records that discovery, registry, proxy and dashboard exchange. */
module Discovered {
  import opened Basics

  datatype Source = Process | Docker | WellKnown | Other(name: string)

  datatype ProcessInfo = ProcessInfo(
    pid: int,
    cwd: string,
    disabled: bool,
    needsCustomMapping: bool,
    isWellKnown: bool,
    topLevelFolder: string,
    relativePath: string)

  datatype ServiceInfo = ServiceInfo(endpoint: Endpoint, protocol: string, version: string)

  datatype DockerListener = DockerListener(endpoint: Endpoint, privatePort: int, kind: string, serviceProtocol: string)

  datatype DockerInfo = DockerInfo(id: string, name: string, hasCustomName: bool, ports: seq<DockerListener>)

  datatype Service = Service(
    subdomain: string,
    endpoint: Endpoint,
    tcpPort: int,
    source: Source,
    process: Option<ProcessInfo>,
    docker: Option<DockerInfo>,
    service: Option<ServiceInfo>)

  datatype Route = Route(
    subdomain: string,
    endpoint: Endpoint,
    tcpPort: int,
    serviceProtocol: string,
    hasWildcard: bool,
    folderGroup: string,
    certPath: string,
    keyPath: string)

  datatype Backend = Backend(
    route: Route,
    pid: int,
    cwd: string,
    disabled: bool,
    source: Source,
    dockerContainerId: string,
    dockerHasAutoName: bool,
    dockerPorts: seq<DockerListener>,
    needsCustomMapping: bool,
    isDocker: bool,
    topLevelFolder: string,
    relativePath: string)

  datatype Mapping = Mapping(folderGroup: string, subdomain: string, cwd: string)

  datatype WellKnownInfo = WellKnownInfo(subdomain: string, http: bool, tcpPort: int)

  const WELL_KNOWN_PORTS: map<int, WellKnownInfo> := map[
    8384 := WellKnownInfo("syncthing", true, 0),
    6379 := WellKnownInfo("redis", false, 16379),
    9200 := WellKnownInfo("elasticsearch", true, 0),
    27017 := WellKnownInfo("mongodb", false, 17017),
    15672 := WellKnownInfo("rabbitmq", true, 0),
    8161 := WellKnownInfo("activemq", true, 0),
    11211 := WellKnownInfo("memcached", false, 21211),
    7474 := WellKnownInfo("neo4j", true, 0),
    5601 := WellKnownInfo("kibana", true, 0),
    3306 := WellKnownInfo("mysql", false, 13306),
    1433 := WellKnownInfo("mssql", false, 11433),
    4369 := WellKnownInfo("epmd", false, 14369),
    9042 := WellKnownInfo("cassandra", false, 19042),
    2181 := WellKnownInfo("zookeeper", false, 12181),
    9092 := WellKnownInfo("kafka", false, 19092),
    8983 := WellKnownInfo("solr", true, 0),
    5672 := WellKnownInfo("amqp", false, 15672),
    1883 := WellKnownInfo("mqtt", false, 11883),
    8086 := WellKnownInfo("influxdb", true, 0),
    3100 := WellKnownInfo("loki", true, 0),
    3200 := WellKnownInfo("tempo", true, 0),
    16686 := WellKnownInfo("jaeger", true, 0),
    9411 := WellKnownInfo("zipkin", true, 0),
    4317 := WellKnownInfo("otel", false, 14317),
    8300 := WellKnownInfo("consul", false, 18300),
    8500 := WellKnownInfo("consulhttp", true, 0),
    8200 := WellKnownInfo("vault", true, 0)]

  const SERVER_PORT: Port := 13279

  const DASHBOARD_ENDPOINT := Endpoint("127.0.0.1", SERVER_PORT)
}

/** An optional value, for the source's nil pointers. */
module Wrappers {
  datatype Option<T> = None | Some(value: T)
}

/** The records aws-ssh passes around (lib/types.go, and SSHEntry as
    lib/aws.go fills it in). Go's optional `*string` fields are read with
    `aws.ToString`, which turns nil into "", so they are plain strings here
    with "" standing for "absent". */
module Types {

  /** An entry of the AWS configuration: profile name, region, and the DNS
      domain given by "aws-ssh-domain" ("" when not set). */
  datatype ProfileConfig = ProfileConfig(name: string, region: string, domain: string)

  /** One EC2 tag. */
  datatype Tag = Tag(key: string, value: string)

  /** The part of an EC2 instance record aws-ssh reads. The launch time is
      the Unix time in seconds that the source sorts by. */
  datatype Instance = Instance(
    instanceId: string,
    privateIp: string,
    publicIp: string,
    vpcId: string,
    launchTime: int,
    tags: seq<Tag>)

  /** One resolved host: its profile, the address to dial, its instance id,
      the instance id of its jump host ("" for none), the port and user
      overrides ("" for none), and every name it answers to, canonical
      name first. */
  datatype SSHEntry = SSHEntry(
    profile: ProfileConfig,
    address: string,
    instanceId: string,
    proxyJump: string,
    port: string,
    user: string,
    names: seq<string>)
}

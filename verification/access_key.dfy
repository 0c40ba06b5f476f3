/** Access keys and their permissions, with the channel check in which a
    `"*"` entry grants every channel. */
module AccessKeys {
  import opened Wrappers
  import opened JsonValues

  const PermissionWildcard := "*"

  datatype ServiceKeyPair = ServiceKeyPair(publicKey: string, privateKey: string)

  /** `Permissions`: the channels a key may send to and receive from, and an
      open-ended resource map. */
  datatype Permissions = Permissions(
    send: seq<string>,
    receive: seq<string>,
    resources: map<string, Json>)
  {
    /** `HasSendPermission`: decided by the send list alone. */
    method HasSendPermission(channel: string) returns (granted: bool)
      ensures granted <==> Grants(send, channel)
    {
      granted := ContainsOrWildcard(send, channel);
    }

    /** `HasReceivePermission`: decided by the receive list alone. */
    method HasReceivePermission(channel: string) returns (granted: bool)
      ensures granted <==> Grants(receive, channel)
    {
      granted := ContainsOrWildcard(receive, channel);
    }
  }

  datatype AccessKey = AccessKey(
    id: string,
    accessKey: string,
    name: string,
    keyType: string,
    createdAt: Time,
    permissions: Option<Permissions>,
    serviceKeyId: string,
    serviceKeyPair: Option<ServiceKeyPair>)

  datatype AccessKeyPermissions = AccessKeyPermissions(
    id: string,
    key: string,
    name: string,
    keyType: string,
    createdAt: Time,
    permissions: Option<Permissions>,
    serviceKeyId: string,
    serviceKeyPair: Option<ServiceKeyPair>)

  datatype AccessKeyList = AccessKeyList(resultsLength: int, results: seq<AccessKeyPermissions>)

  datatype CreateAccessKeyRequest = CreateAccessKeyRequest(keyType: string, name: string, permissions: Option<Permissions>)

  datatype UpdateServiceKeyPairRequest = UpdateServiceKeyPairRequest(accessKey: string)

  /** What a channel list grants: every channel when it holds the wildcard,
      otherwise exactly the channels it names. */
  predicate Grants(channels: seq<string>, channel: string) {
    PermissionWildcard in channels || channel in channels
  }

  /** `containsOrWildcard`: scans the list and stops at the first entry that
      is the wildcard or the channel itself. */
  method ContainsOrWildcard(channels: seq<string>, channel: string) returns (found: bool)
    ensures found <==> Grants(channels, channel)
    ensures found <==> exists i :: 0 <= i < |channels| && (channels[i] == PermissionWildcard || channels[i] == channel)
  {
    var i := 0;
    while i < |channels|
      invariant 0 <= i <= |channels|
      invariant forall j :: 0 <= j < i ==> channels[j] != PermissionWildcard && channels[j] != channel
    {
      if channels[i] == PermissionWildcard || channels[i] == channel {
        return true;
      }
      i := i + 1;
    }
    return false;
  }

  /** The wildcard grants every channel. */
  lemma WildcardGrantsAll(channels: seq<string>, channel: string)
    requires PermissionWildcard in channels
    ensures Grants(channels, channel)
  {
  }

  /** Without the wildcard, a channel is granted only by an entry equal to it,
      character for character (so case matters). */
  lemma ExactMatchWithoutWildcard(channels: seq<string>, channel: string)
    requires PermissionWildcard !in channels
    ensures Grants(channels, channel) <==> exists i :: 0 <= i < |channels| && channels[i] == channel
  {
  }

  lemma CaseSensitive()
    ensures !Grants(["orders"], "Orders")
    ensures Grants(["orders"], "orders")
  {
  }

  /** An empty (or nil) list grants nothing. */
  lemma EmptyGrantsNothing(channel: string)
    ensures !Grants([], channel)
  {
  }

  /** The order of the entries does not matter. */
  lemma GrantsIgnoresOrder(xs: seq<string>, ys: seq<string>, channel: string)
    requires multiset(xs) == multiset(ys)
    ensures Grants(xs, channel) <==> Grants(ys, channel)
  {
    assert PermissionWildcard in xs <==> PermissionWildcard in multiset(xs);
    assert PermissionWildcard in ys <==> PermissionWildcard in multiset(ys);
    assert channel in xs <==> channel in multiset(xs);
    assert channel in ys <==> channel in multiset(ys);
  }

  /** Adding entries never revokes a permission. */
  lemma GrantsMonotone(xs: seq<string>, ys: seq<string>, channel: string)
    requires forall x :: x in xs ==> x in ys
    requires Grants(xs, channel)
    ensures Grants(ys, channel)
  {
  }
}

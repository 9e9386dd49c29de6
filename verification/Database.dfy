/**
 The three tables and the statements that read and change them. No unique index exists, so a
 conflict clause never applies; identifiers are serial.
 */
module Database {
  import opened Bytes
  import opened Wrappers

  datatype User = User(id: nat, foreignKey: string)
  datatype Wallet = Wallet(id: nat, userId: nat, address: string, sealed: seq<byte>, nonce: seq<byte>)
  datatype Device = Device(id: nat, userId: nat, walletId: nat, peerId: string, userAgent: string)

  /** The tables, with the last serial number handed out. */
  datatype Tables = Tables(users: seq<User>, wallets: seq<Wallet>, devices: seq<Device>, serial: nat)

  // ---- SELECT ----

  function UsersWith(users: seq<User>, foreignKey: string): set<nat> {
    set u | u in users && u.foreignKey == foreignKey :: u.id
  }

  function FirstUser(users: seq<User>, foreignKey: string): Option<User> {
    if users == [] then None
    else if users[0].foreignKey == foreignKey then Some(users[0])
    else FirstUser(users[1..], foreignKey)
  }

  function FirstWallet(wallets: seq<Wallet>, userId: nat): Option<Wallet> {
    if wallets == [] then None
    else if wallets[0].userId == userId then Some(wallets[0])
    else FirstWallet(wallets[1..], userId)
  }

  /** The left join: the outer option is the row, the inner one its wallet columns. */
  function SigningParameters(t: Tables, foreignKey: string): Option<Option<Wallet>> {
    match FirstUser(t.users, foreignKey)
    case None => None
    case Some(u) => Some(FirstWallet(t.wallets, u.id))
  }

  predicate IsFirst<T(==)>(rows: seq<T>, wanted: T -> bool, row: T) {
    exists i :: 0 <= i < |rows| && rows[i] == row && wanted(row) && forall j :: 0 <= j < i ==> !wanted(rows[j])
  }

  function DevicesOf(devices: seq<Device>, userId: nat): seq<Device> {
    if devices == [] then []
    else DevicesOf(devices[..|devices| - 1], userId)
         + if devices[|devices| - 1].userId == userId then [devices[|devices| - 1]] else []
  }

  /** The user's devices are all of them, nobody else's, and in the order of the table. */
  lemma {:induction false} DevicesOfIsFilter(devices: seq<Device>, userId: nat)
    ensures forall d :: d in DevicesOf(devices, userId) <==> d in devices && d.userId == userId
    ensures forall d: Device :: d.userId == userId ==> multiset(DevicesOf(devices, userId))[d] == multiset(devices)[d]
    ensures forall more :: DevicesOf(devices, userId) <= DevicesOf(devices + [more], userId)
  {
    if devices != [] {
      var init := devices[..|devices| - 1];
      DevicesOfIsFilter(init, userId);
      assert devices == init + [devices[|devices| - 1]];
    }
    forall more
      ensures DevicesOf(devices, userId) <= DevicesOf(devices + [more], userId)
    {
      assert (devices + [more])[..|devices|] == devices;
    }
  }

  // ---- INSERT ----

  /** One user, one wallet of that user and one device of that wallet. */
  function InsertedDkg(t: Tables, userAgent: string, peerId: string, foreignKey: string, address: string,
                       sealed: seq<byte>, nonce: seq<byte>): Tables {
    var u, w, d := t.serial + 1, t.serial + 2, t.serial + 3;
    Tables(t.users + [User(u, foreignKey)],
           t.wallets + [Wallet(w, u, address, sealed, nonce)],
           t.devices + [Device(d, u, w, peerId, userAgent)],
           d)
  }

  // ---- UPDATE and INSERT of AddPeer ----

  function UpdatedWallets(wallets: seq<Wallet>, owners: set<nat>, sealed: seq<byte>, nonce: seq<byte>): (r: seq<Wallet>)
    ensures |r| == |wallets|
  {
    seq(|wallets|, i requires 0 <= i < |wallets| =>
      if wallets[i].userId in owners then wallets[i].(sealed := sealed, nonce := nonce) else wallets[i])
  }

  /** One device row for every updated wallet, numbered from `serial`. */
  function NewDevices(wallets: seq<Wallet>, owners: set<nat>, peerId: string, userAgent: string,
                      serial: nat): seq<Device>
  {
    if wallets == [] then []
    else
      var before := NewDevices(wallets[..|wallets| - 1], owners, peerId, userAgent, serial);
      var w := wallets[|wallets| - 1];
      if w.userId in owners then before + [Device(serial + |before| + 1, w.userId, w.id, peerId, userAgent)] else before
  }

  function WithPeer(t: Tables, userAgent: string, peerId: string, foreignKey: string, sealed: seq<byte>,
                    nonce: seq<byte>): Tables
  {
    var owners := UsersWith(t.users, foreignKey);
    var added := NewDevices(t.wallets, owners, peerId, userAgent, t.serial);
    t.(wallets := UpdatedWallets(t.wallets, owners, sealed, nonce), devices := t.devices + added,
       serial := t.serial + |added|)
  }

  /** The wallets of the given users, in the order of the table. */
  function OwnedBy(wallets: seq<Wallet>, owners: set<nat>): seq<Wallet> {
    if wallets == [] then []
    else OwnedBy(wallets[..|wallets| - 1], owners)
         + if wallets[|wallets| - 1].userId in owners then [wallets[|wallets| - 1]] else []
  }

  lemma {:induction false} OwnedByIsFilter(wallets: seq<Wallet>, owners: set<nat>)
    ensures forall w :: w in OwnedBy(wallets, owners) <==> w in wallets && w.userId in owners
    ensures forall w: Wallet :: w.userId in owners ==> multiset(OwnedBy(wallets, owners))[w] == multiset(wallets)[w]
  {
    if wallets != [] {
      OwnedByIsFilter(wallets[..|wallets| - 1], owners);
      assert wallets == wallets[..|wallets| - 1] + [wallets[|wallets| - 1]];
    }
  }

  /** Each rewritten wallet gets one device row, and no other row is written. */
  lemma {:induction false} OneDeviceEach(wallets: seq<Wallet>, owners: set<nat>, peerId: string, userAgent: string,
                                         serial: nat)
    ensures var rows, owned := NewDevices(wallets, owners, peerId, userAgent, serial), OwnedBy(wallets, owners);
            && |rows| == |owned|
            && (forall j :: 0 <= j < |rows| ==>
                  rows[j] == Device(serial + j + 1, owned[j].userId, owned[j].id, peerId, userAgent))
  {
    if wallets != [] {
      OneDeviceEach(wallets[..|wallets| - 1], owners, peerId, userAgent, serial);
    }
  }

  class Queries {
    var users: seq<User>
    var wallets: seq<Wallet>
    var devices: seq<Device>
    var serial: nat

    function Contents(): Tables
      reads this
    {
      Tables(users, wallets, devices, serial)
    }

    constructor ()
      ensures Contents() == Tables([], [], [], 0)
    {
      users, wallets, devices, serial := [], [], [], 0;
    }

    method GetUserByForeignKey(foreignKey: string) returns (row: Option<User>)
      ensures row == FirstUser(users, foreignKey)
      ensures row.None? <==> forall u :: u in users ==> u.foreignKey != foreignKey
      ensures row.Some? ==> IsFirst(users, (u: User) => u.foreignKey == foreignKey, row.value)
    {
      var i := 0;
      while i < |users|
        invariant 0 <= i <= |users|
        invariant FirstUser(users, foreignKey) == FirstUser(users[i..], foreignKey)
        invariant forall j :: 0 <= j < i ==> users[j].foreignKey != foreignKey
      {
        if users[i].foreignKey == foreignKey {
          return Some(users[i]);
        }
        i := i + 1;
      }
      return None;
    }

    method GetUserSigningParameters(foreignKey: string) returns (row: Option<Option<Wallet>>)
      ensures row == SigningParameters(Contents(), foreignKey)
      ensures row.None? <==> forall u :: u in users ==> u.foreignKey != foreignKey
      ensures row.Some? ==>
                exists u :: IsFirst(users, (v: User) => v.foreignKey == foreignKey, u)
                  && (row.value.None? <==> forall w :: w in wallets ==> w.userId != u.id)
                  && (row.value.Some? ==> IsFirst(wallets, (w: Wallet) => w.userId == u.id, row.value.value))
    {
      var user := GetUserByForeignKey(foreignKey);
      if user.None? {
        return None;
      }
      var i := 0;
      while i < |wallets|
        invariant 0 <= i <= |wallets|
        invariant FirstWallet(wallets, user.value.id) == FirstWallet(wallets[i..], user.value.id)
        invariant forall j :: 0 <= j < i ==> wallets[j].userId != user.value.id
      {
        if wallets[i].userId == user.value.id {
          return Some(Some(wallets[i]));
        }
        i := i + 1;
      }
      return Some(None);
    }

    method GetUserDevices(userId: nat) returns (items: seq<Device>)
      ensures items == DevicesOf(devices, userId)
    {
      items := [];
      for i := 0 to |devices|
        invariant items == DevicesOf(devices[..i], userId)
      {
        assert devices[..i + 1][..i] == devices[..i];
        if devices[i].userId == userId {
          items := items + [devices[i]];
        }
      }
      assert devices[..|devices|] == devices;
    }

    method Dkg(userAgent: string, peerId: string, foreignKey: string, address: string, sealed: seq<byte>,
        nonce: seq<byte>)
      returns (row: Device)
      modifies this
      ensures Contents() == InsertedDkg(old(Contents()), userAgent, peerId, foreignKey, address, sealed, nonce)
      ensures users == old(users) + [User(row.userId, foreignKey)]
      ensures wallets == old(wallets) + [Wallet(row.walletId, row.userId, address, sealed, nonce)]
      ensures devices == old(devices) + [row] && row.peerId == peerId && row.userAgent == userAgent
      ensures old(serial) < row.userId <= serial && old(serial) < row.walletId <= serial
      ensures old(serial) < row.id <= serial
    {
      var user := User(serial + 1, foreignKey);
      users := users + [user];
      var wallet := Wallet(serial + 2, user.id, address, sealed, nonce);
      wallets := wallets + [wallet];
      row := Device(serial + 3, user.id, wallet.id, peerId, userAgent);
      devices := devices + [row];
      serial := serial + 3;
    }

    /** Without a wallet to update nothing is inserted and no row comes back. */
    method AddPeer(userAgent: string, peerId: string, foreignKey: string, sealed: seq<byte>, nonce: seq<byte>)
      returns (row: Option<Device>)
      modifies this
      ensures Contents() == WithPeer(old(Contents()), userAgent, peerId, foreignKey, sealed, nonce)
      ensures users == old(users) && |wallets| == |old(wallets)|
      ensures forall i :: 0 <= i < |wallets| ==>
                wallets[i] == if exists u :: u in users && u.foreignKey == foreignKey && u.id == old(wallets[i]).userId
                              then old(wallets[i]).(sealed := sealed, nonce := nonce) else old(wallets[i])
      ensures var owned := OwnedBy(old(wallets), UsersWith(users, foreignKey));
              && |devices| == |old(devices)| + |owned| && old(devices) <= devices
              && (forall j :: 0 <= j < |owned| ==>
                    devices[|old(devices)| + j]
                    == Device(old(serial) + j + 1, owned[j].userId, owned[j].id, peerId, userAgent))
      ensures row.None? <==> devices == old(devices)
      ensures row.None? ==> Contents() == old(Contents())
      ensures row.Some? ==> |devices| > |old(devices)| && devices[|old(devices)|] == row.value
    {
      var owners := set u | u in users && u.foreignKey == foreignKey :: u.id;
      ghost var before, start := devices, serial;
      ghost var was := wallets;
      var inserted: seq<Device> := [];
      for i := 0 to |wallets|
        invariant |wallets| == |was| && users == old(users) && devices == before
        invariant forall j :: 0 <= j < i ==> wallets[j] == UpdatedWallets(was, owners, sealed, nonce)[j]
        invariant forall j :: i <= j < |was| ==> wallets[j] == was[j]
        invariant inserted == NewDevices(was[..i], owners, peerId, userAgent, start) && serial == start + |inserted|
        invariant inserted == [] ==> wallets == was
      {
        assert was[..i + 1][..i] == was[..i];
        if wallets[i].userId in owners {
          wallets := wallets[i := wallets[i].(sealed := sealed, nonce := nonce)];
          inserted := inserted + [Device(serial + 1, wallets[i].userId, wallets[i].id, peerId, userAgent)];
          serial := serial + 1;
        }
      }
      assert was[..|was|] == was;
      OneDeviceEach(was, owners, peerId, userAgent, start);
      assert wallets == UpdatedWallets(was, owners, sealed, nonce);
      devices := devices + inserted;
      row := if inserted == [] then None else Some(inserted[0]);
    }
  }
}

/** Building, decoding and rebuilding the connection settings of onboardd's own profiles.
    A string is the sequence of its bytes. */
module Settings {
  import opened Text
  import opened Uuids
  import opened Profiles
  import opened Addresses

  /** The setting names onboardd reads or writes: 802-11-wireless, connection and so on. */
  datatype Section = Connection | Wireless | Security | Ipv4 | Ipv6 | User | OtherSection(name: string)

  datatype Key =
    | Id | UuidKey | Type | InterfaceName | Autoconnect | AutoconnectPriority
    | Mode | Ssid | Hidden | Band
    | KeyMgmt | Psk
    | Method | AddressDataKey | Address | PrefixKey
    | Data
    | OtherKey(name: string)

  /** The user.data entries: onboardd.owner, onboardd.role, onboardd.schema, onboardd.pending. */
  datatype Mark = OwnerMark | RoleMark | SchemaMark | PendingMark | OtherMark(name: string)

  datatype Variant =
    | Str(text: string)
    | Bool(flag: bool)
    | Int32(number: int)
    | UInt32(count: nat)
    | Bytes(data: string)
    | Dict(entries: map<Mark, string>)
    | AddressData(list: seq<map<Key, Variant>>)

  type Values = map<Key, Variant>
  type Tree = map<Section, Values>

  const OWNER := "onboardd"

  datatype InfrastructureOptions = InfrastructureOptions(
    id: string,
    uuid: string,
    iface: string,
    ssid: string,
    password: string,
    open: bool,
    hidden: bool,
    autoconnect: bool,
    priority: int,
    pending: bool)

  datatype AccessPointOptions = AccessPointOptions(
    id: string,
    uuid: string,
    iface: string,
    ssid: string,
    password: string,
    address: string,
    role: Role,
    autoconnect: bool,
    priority: int,
    band: string)

  predicate ValidSsid(ssid: string) { 1 <= |ssid| <= 32 }

  predicate ValidPsk(password: string) {
    8 <= |password| <= 63 || (|password| == 64 && HexText(password))
  }

  /** An empty option takes the generated UUID, which is already canonical. */
  function ResolveUuid(value: string, generated: Uuid): Result<Uuid> {
    if value == "" then Ok(generated)
    else if ValidUuid(value) then Ok(Lower(value))
    else Err("UUID must use the canonical 8-4-4-4-12 format")
  }

  function Metadata(role: Role, pending: bool): Values {
    var base := map[OwnerMark := OWNER, RoleMark := RoleName(role), SchemaMark := "1"];
    map[Data := Dict(if pending then base[PendingMark := "true"] else base)]
  }

  function ConnectionSection(id: string, uuid: Uuid, iface: string, autoconnect: bool, priority: int): Values {
    map[Id := Str(id), UuidKey := Str(uuid), Type := Str(WIFI), InterfaceName := Str(iface),
        Autoconnect := Bool(autoconnect), AutoconnectPriority := Int32(priority)]
  }

  function PskSection(password: string): Values {
    map[KeyMgmt := Str("wpa-psk"), Psk := Str(password)]
  }

  /** The checks BuildInfrastructureSettings makes before it builds anything. */
  function InfrastructureError(o: InfrastructureOptions): Option<string> {
    if o.iface == "" then Some("interface is required")
    else if !ValidSsid(o.ssid) then Some("SSID must contain between 1 and 32 bytes")
    else if o.open && o.password != "" then Some("open network cannot include a password")
    else if !o.open && !ValidPsk(o.password) then
      Some("WPA password must be 8-63 bytes or 64 hexadecimal characters")
    else if o.priority < -999 || o.priority > 999 then
      Some("autoconnect priority must be between -999 and 999")
    else None
  }

  function IdOr(id: string, role: Role, ssid: string): string {
    if id == "" then DefaultId(role, ssid) else id
  }

  function InfrastructureTree(o: InfrastructureOptions, uuid: Uuid): Tree {
    var base := map[
      Connection := ConnectionSection(IdOr(o.id, Infrastructure, o.ssid), uuid, o.iface, o.autoconnect, o.priority),
      Wireless := map[Mode := Str("infrastructure"), Ssid := Bytes(o.ssid), Hidden := Bool(o.hidden)],
      Ipv4 := map[Method := Str("auto")],
      Ipv6 := map[Method := Str("auto")],
      User := Metadata(Infrastructure, o.pending)];
    if o.open then base else base[Security := PskSection(o.password)]
  }

  /** Why the settings of a network cannot be built. */
  function InfrastructureRefusal(o: InfrastructureOptions, generated: Uuid): Option<string> {
    match InfrastructureError(o)
    case Some(e) => Some(e)
    case None =>
      match ResolveUuid(o.uuid, generated)
      case Err(e) => Some(e)
      case Ok(_) => None
  }

  function BuildInfrastructure(o: InfrastructureOptions, generated: Uuid): Result<(Tree, Uuid)> {
    match InfrastructureRefusal(o, generated)
    case Some(e) => Err(e)
    case None =>
      var uuid := ResolveUuid(o.uuid, generated).value;
      Ok((InfrastructureTree(o, uuid), uuid))
  }

  /** The checks BuildAccessPointSettings makes before it reads the address. */
  function AccessPointError(o: AccessPointOptions): Option<string> {
    if o.role != Provisioning && o.role != Standalone then
      Some("access point role must be provisioning or standalone")
    else if o.iface == "" then Some("interface is required")
    else if !ValidSsid(o.ssid) then Some("SSID must contain between 1 and 32 bytes")
    else if !ValidPsk(o.password) then
      Some("WPA password must be 8-63 bytes or 64 hexadecimal characters")
    else if o.priority < -999 || o.priority > 999 then
      Some("autoconnect priority must be between -999 and 999")
    else if o.band != "" && o.band != "bg" && o.band != "a" && o.band != "6GHz" then
      Some("band must be bg, a, or 6GHz")
    else None
  }

  function AccessPointTree(o: AccessPointOptions, prefix: Prefix, uuid: Uuid): Tree {
    var wireless := map[Mode := Str("ap"), Ssid := Bytes(o.ssid)];
    var entry := map[Address := Str(AddressText(prefix.address)), PrefixKey := UInt32(prefix.bits)];
    map[
      Connection := ConnectionSection(IdOr(o.id, o.role, o.ssid), uuid, o.iface, o.autoconnect, o.priority),
      Wireless := if o.band == "" then wireless else wireless[Band := Str(o.band)],
      Security := PskSection(o.password),
      Ipv4 := map[Method := Str("shared"), AddressDataKey := AddressData([entry])],
      Ipv6 := map[Method := Str("disabled")],
      User := Metadata(o.role, false)]
  }

  /** Why the settings of an access point cannot be built. */
  function AccessPointRefusal(o: AccessPointOptions, generated: Uuid): Option<string> {
    match AccessPointError(o)
    case Some(e) => Some(e)
    case None =>
      match ParseAddress(o.address)
      case None => Some("address must be a valid IPv4 CIDR")
      case Some(_) =>
        match ResolveUuid(o.uuid, generated)
        case Err(e) => Some(e)
        case Ok(_) => None
  }

  function BuildAccessPoint(o: AccessPointOptions, generated: Uuid): Result<(Tree, Uuid)> {
    match AccessPointRefusal(o, generated)
    case Some(e) => Err(e)
    case None =>
      var uuid := ResolveUuid(o.uuid, generated).value;
      Ok((AccessPointTree(o, ParseAddress(o.address).value, uuid), uuid))
  }

  function Lookup(c: Tree, section: Section, key: Key): Option<Variant> {
    if section in c && key in c[section] then Some(c[section][key]) else None
  }

  function StringAt(v: Option<Variant>): string {
    if v.Some? && v.value.Str? then v.value.text else ""
  }

  function BoolAt(v: Option<Variant>, fallback: bool): bool {
    if v.Some? && v.value.Bool? then v.value.flag else fallback
  }

  function RoleOf(name: string): Role {
    if name == "infrastructure" then Infrastructure
    else if name == "provisioning" then Provisioning
    else if name == "standalone" then Standalone
    else Other(name)
  }

  function BytesAt(v: Option<Variant>): string {
    if v.Some? && v.value.Bytes? then v.value.data else ""
  }

  function Int32At(v: Option<Variant>): int {
    if v.Some? && v.value.Int32? then v.value.number else 0
  }

  function MarksAt(v: Option<Variant>): map<Mark, string> {
    if v.Some? && v.value.Dict? then v.value.entries else map[]
  }

  function Marked(marks: map<Mark, string>, mark: Mark): string {
    if mark in marks then marks[mark] else ""
  }

  /** The profile NetworkManager lists for a connection. */
  function DecodeProfile(c: Tree, inMemory: bool): Profile {
    var marks := MarksAt(Lookup(c, User, Data));
    Profile(
      StringAt(Lookup(c, Connection, UuidKey)),
      StringAt(Lookup(c, Connection, Id)),
      StringAt(Lookup(c, Connection, Type)),
      StringAt(Lookup(c, Connection, InterfaceName)),
      BytesAt(Lookup(c, Wireless, Ssid)),
      StringAt(Lookup(c, Wireless, Mode)),
      BoolAt(Lookup(c, Connection, Autoconnect), true),
      Int32At(Lookup(c, Connection, AutoconnectPriority)),
      Marked(marks, OwnerMark) == OWNER,
      RoleOf(Marked(marks, RoleMark)),
      Marked(marks, PendingMark) == "true",
      inMemory)
  }

  /** profilePSK: the separately read secrets come first. */
  function ProfilePsk(current: Tree, secrets: Tree): Result<string> {
    var hidden := StringAt(Lookup(secrets, Security, Psk));
    var shown := StringAt(Lookup(current, Security, Psk));
    if hidden != "" then Ok(hidden)
    else if shown != "" then Ok(shown)
    else Err("WPA password was not available from NetworkManager")
  }

  function ProfileAddress(current: Tree): Result<string> {
    var data := Lookup(current, Ipv4, AddressDataKey);
    if data.None? || !data.value.AddressData? || |data.value.list| == 0 then
      Err("standalone profile has no IPv4 address-data")
    else
      var entry := data.value.list[0];
      if Address !in entry || !entry[Address].Str? || entry[Address].text == "" ||
         PrefixKey !in entry || !entry[PrefixKey].UInt32? || entry[PrefixKey].count > 32 then
        Err("standalone profile has invalid IPv4 address-data")
      else Ok(entry[Address].text + "/" + Decimal(entry[PrefixKey].count))
  }

  /** rebuildOwnedSettings: fresh settings from the decoded profile, the settings read back
      and the secrets. A rebuilt candidate is no longer pending. */
  function RebuildOwned(p: Profile, current: Tree, secrets: Tree, autoconnect: bool, generated: Uuid)
    : Result<(Tree, Uuid)>
  {
    if Wireless !in current then Err("missing 802-11-wireless settings")
    else match p.role
      case Infrastructure =>
        var secured := Security in current;
        var password := if secured then ProfilePsk(current, secrets) else Ok("");
        if password.Err? then Err(password.error)
        else BuildInfrastructure(InfrastructureOptions(
          p.id, p.uuid, p.iface, p.ssid, password.value, !secured,
          BoolAt(Lookup(current, Wireless, Hidden), false), autoconnect, p.priority, false), generated)
      case Standalone =>
        var password := ProfilePsk(current, secrets);
        if password.Err? then Err(password.error)
        else
          var address := ProfileAddress(current);
          if address.Err? then Err(address.error)
          else BuildAccessPoint(AccessPointOptions(
            p.id, p.uuid, p.iface, p.ssid, password.value, address.value, Standalone, autoconnect, p.priority,
            StringAt(Lookup(current, Wireless, Band))), generated)
      case _ => Err("cannot rebuild profile with this role")
  }

  /** What NetworkManager reads back: every value onboardd uses, except that the password may
      come from the secrets only; anything NetworkManager adds elsewhere is free. */
  ghost predicate ReadsBack(built: Tree, current: Tree, secrets: Tree, password: string) {
    && Wireless in current
    && (Security in current <==> Security in built)
    && Lookup(current, Connection, Id) == Lookup(built, Connection, Id)
    && Lookup(current, Connection, UuidKey) == Lookup(built, Connection, UuidKey)
    && Lookup(current, Connection, Type) == Lookup(built, Connection, Type)
    && Lookup(current, Connection, InterfaceName) == Lookup(built, Connection, InterfaceName)
    && Lookup(current, Connection, Autoconnect) == Lookup(built, Connection, Autoconnect)
    && Lookup(current, Connection, AutoconnectPriority) == Lookup(built, Connection, AutoconnectPriority)
    && Lookup(current, Wireless, Mode) == Lookup(built, Wireless, Mode)
    && Lookup(current, Wireless, Ssid) == Lookup(built, Wireless, Ssid)
    && Lookup(current, Wireless, Hidden) == Lookup(built, Wireless, Hidden)
    && Lookup(current, Wireless, Band) == Lookup(built, Wireless, Band)
    && Lookup(current, Ipv4, AddressDataKey) == Lookup(built, Ipv4, AddressDataKey)
    && Lookup(current, User, Data) == Lookup(built, User, Data)
    && (StringAt(Lookup(secrets, Security, Psk)) == password ||
        (StringAt(Lookup(secrets, Security, Psk)) == "" && StringAt(Lookup(current, Security, Psk)) == password))
  }

  lemma RoleNamed(role: Role)
    requires !role.Other?
    ensures RoleOf(RoleName(role)) == role
  {
  }

  lemma MetadataDecodes(role: Role, pending: bool)
    requires !role.Other?
    ensures var marks := MarksAt(Some(Metadata(role, pending)[Data]));
            && Marked(marks, OwnerMark) == OWNER
            && RoleOf(Marked(marks, RoleMark)) == role
            && (Marked(marks, PendingMark) == "true" <==> pending)
  {
    RoleNamed(role);
  }

  /** What a tree answers for the values every profile has. */
  ghost predicate Answers(c: Tree, id: string, uuid: Uuid, iface: string, ssid: string, mode: string,
                          autoconnect: bool, priority: int, role: Role, pending: bool)
  {
    && Lookup(c, Connection, Id) == Some(Str(id))
    && Lookup(c, Connection, UuidKey) == Some(Str(uuid))
    && Lookup(c, Connection, Type) == Some(Str(WIFI))
    && Lookup(c, Connection, InterfaceName) == Some(Str(iface))
    && Lookup(c, Connection, Autoconnect) == Some(Bool(autoconnect))
    && Lookup(c, Connection, AutoconnectPriority) == Some(Int32(priority))
    && Lookup(c, Wireless, Ssid) == Some(Bytes(ssid))
    && Lookup(c, Wireless, Mode) == Some(Str(mode))
    && Lookup(c, User, Data) == Some(Metadata(role, pending)[Data])
  }

  lemma AnswersDecode(c: Tree, id: string, uuid: Uuid, iface: string, ssid: string, mode: string,
                      autoconnect: bool, priority: int, role: Role, pending: bool, inMemory: bool)
    requires !role.Other?
    requires Answers(c, id, uuid, iface, ssid, mode, autoconnect, priority, role, pending)
    ensures DecodeProfile(c, inMemory) ==
            Profile(uuid, id, WIFI, iface, ssid, mode, autoconnect, priority, true, role, pending, inMemory)
  {
    MetadataDecodes(role, pending);
  }

  lemma InfrastructureAnswers(o: InfrastructureOptions, uuid: Uuid)
    ensures Answers(InfrastructureTree(o, uuid), IdOr(o.id, Infrastructure, o.ssid), uuid, o.iface, o.ssid,
                    "infrastructure", o.autoconnect, o.priority, Infrastructure, o.pending)
    ensures Lookup(InfrastructureTree(o, uuid), Wireless, Hidden) == Some(Bool(o.hidden))
    ensures Security in InfrastructureTree(o, uuid) <==> !o.open
  {
  }

  lemma AccessPointAnswers(o: AccessPointOptions, prefix: Prefix, uuid: Uuid)
    ensures Answers(AccessPointTree(o, prefix, uuid), IdOr(o.id, o.role, o.ssid), uuid, o.iface, o.ssid,
                    "ap", o.autoconnect, o.priority, o.role, false)
  {
  }

  lemma AccessPointKeeps(o: AccessPointOptions, prefix: Prefix, uuid: Uuid)
    ensures Lookup(AccessPointTree(o, prefix, uuid), Wireless, Band) == if o.band == "" then None else Some(Str(o.band))
    ensures Lookup(AccessPointTree(o, prefix, uuid), Ipv4, AddressDataKey) ==
            Some(AddressData([map[Address := Str(AddressText(prefix.address)), PrefixKey := UInt32(prefix.bits)]]))
  {
  }

  lemma DecodedInfrastructure(o: InfrastructureOptions, uuid: Uuid, current: Tree, secrets: Tree, inMemory: bool)
    requires ReadsBack(InfrastructureTree(o, uuid), current, secrets, o.password)
    ensures DecodeProfile(current, inMemory) ==
            Profile(uuid, IdOr(o.id, Infrastructure, o.ssid), WIFI, o.iface, o.ssid, "infrastructure",
                    o.autoconnect, o.priority, true, Infrastructure, o.pending, inMemory)
    ensures BoolAt(Lookup(current, Wireless, Hidden), false) == o.hidden
    ensures Security in current <==> !o.open
  {
    InfrastructureAnswers(o, uuid);
    AnswersDecode(current, IdOr(o.id, Infrastructure, o.ssid), uuid, o.iface, o.ssid, "infrastructure",
                  o.autoconnect, o.priority, Infrastructure, o.pending, inMemory);
  }

  lemma DecodedAccessPoint(o: AccessPointOptions, prefix: Prefix, uuid: Uuid, current: Tree, secrets: Tree, inMemory: bool)
    requires !o.role.Other? && prefix.bits <= 32
    requires ReadsBack(AccessPointTree(o, prefix, uuid), current, secrets, o.password)
    ensures DecodeProfile(current, inMemory) ==
            Profile(uuid, IdOr(o.id, o.role, o.ssid), WIFI, o.iface, o.ssid, "ap",
                    o.autoconnect, o.priority, true, o.role, false, inMemory)
    ensures StringAt(Lookup(current, Wireless, Band)) == o.band
    ensures ProfileAddress(current) == Ok(PrefixText(prefix))
  {
    AccessPointAnswers(o, prefix, uuid);
    AccessPointKeeps(o, prefix, uuid);
    AnswersDecode(current, IdOr(o.id, o.role, o.ssid), uuid, o.iface, o.ssid, "ap",
                  o.autoconnect, o.priority, o.role, false, inMemory);
    AddressReadsBack(prefix, current);
  }

  lemma AddressReadsBack(prefix: Prefix, current: Tree)
    requires prefix.bits <= 32
    requires Lookup(current, Ipv4, AddressDataKey) ==
             Some(AddressData([map[Address := Str(AddressText(prefix.address)), PrefixKey := UInt32(prefix.bits)]]))
    ensures ProfileAddress(current) == Ok(PrefixText(prefix))
  {
    PrefixRoundTrip(prefix);
    AddressTextNonempty(prefix.address);
  }

  lemma PskReadsBack(built: Tree, current: Tree, secrets: Tree, password: string)
    requires ReadsBack(built, current, secrets, password) && password != ""
    ensures ProfilePsk(current, secrets) == Ok(password)
  {
  }

  lemma IdSettles(id: string, role: Role, ssid: string)
    ensures IdOr(id, role, ssid) != "" && IdOr(IdOr(id, role, ssid), role, ssid) == IdOr(id, role, ssid)
  {
  }

  lemma UuidSettles(value: string, generated: Uuid, generated': Uuid)
    requires ValidUuid(generated) && Lower(generated) == generated
    requires ResolveUuid(value, generated).Ok?
    ensures ResolveUuid(ResolveUuid(value, generated).value, generated') == ResolveUuid(value, generated)
  {
    LowerUuid(value);
  }

  /** The options an infrastructure profile is rebuilt from. */
  function AgainInfrastructure(o: InfrastructureOptions, uuid: Uuid, enabled: bool): InfrastructureOptions {
    InfrastructureOptions(IdOr(o.id, Infrastructure, o.ssid), uuid, o.iface, o.ssid, if o.open then "" else o.password,
                          o.open, o.hidden, enabled, o.priority, false)
  }

  lemma InfrastructureReadsOptions(o: InfrastructureOptions, uuid: Uuid, current: Tree, secrets: Tree,
                                   inMemory: bool, enabled: bool, generated: Uuid)
    requires o.open || o.password != ""
    requires ReadsBack(InfrastructureTree(o, uuid), current, secrets, o.password)
    ensures RebuildOwned(DecodeProfile(current, inMemory), current, secrets, enabled, generated) ==
            BuildInfrastructure(AgainInfrastructure(o, uuid, enabled), generated)
  {
    DecodedInfrastructure(o, uuid, current, secrets, inMemory);
    if !o.open {
      PskReadsBack(InfrastructureTree(o, uuid), current, secrets, o.password);
    }
  }

  lemma AcceptedInfrastructure(o: InfrastructureOptions, generated: Uuid)
    requires BuildInfrastructure(o, generated).Ok?
    ensures var (built, uuid) := BuildInfrastructure(o, generated).value;
            built == InfrastructureTree(o, uuid) && (o.open || o.password != "")
  {
  }

  lemma AgainBuildsTheSameInfrastructure(o: InfrastructureOptions, generated: Uuid, enabled: bool, generated': Uuid)
    requires ValidUuid(generated) && Lower(generated) == generated
    requires BuildInfrastructure(o, generated).Ok?
    ensures BuildInfrastructure(AgainInfrastructure(o, BuildInfrastructure(o, generated).value.1, enabled), generated') ==
            BuildInfrastructure(o.(autoconnect := enabled, pending := false), generated)
  {
    var uuid := BuildInfrastructure(o, generated).value.1;
    var again := AgainInfrastructure(o, uuid, enabled);
    UuidSettles(o.uuid, generated, generated');
    IdSettles(o.id, Infrastructure, o.ssid);
    assert InfrastructureError(again) == None;
    assert InfrastructureTree(again, uuid) == InfrastructureTree(o.(autoconnect := enabled, pending := false), uuid);
  }

  /** Decode and rebuild: whatever options were accepted, an autoconnect update rewrites the
      profile to exactly what the same options with the new flag would build, with the
      candidate mark cleared. */
  lemma InfrastructureRoundTrip(o: InfrastructureOptions, generated: Uuid, current: Tree, secrets: Tree,
                                inMemory: bool, enabled: bool, generated': Uuid)
    requires ValidUuid(generated) && Lower(generated) == generated
    requires BuildInfrastructure(o, generated).Ok?
    requires ReadsBack(BuildInfrastructure(o, generated).value.0, current, secrets, o.password)
    ensures RebuildOwned(DecodeProfile(current, inMemory), current, secrets, enabled, generated') ==
            BuildInfrastructure(o.(autoconnect := enabled, pending := false), generated)
  {
    var (built, uuid) := BuildInfrastructure(o, generated).value;
    AcceptedInfrastructure(o, generated);
    InfrastructureReadsOptions(o, uuid, current, secrets, inMemory, enabled, generated');
    AgainBuildsTheSameInfrastructure(o, generated, enabled, generated');
  }

  /** The options a standalone profile is rebuilt from. */
  function AgainOptions(o: AccessPointOptions, prefix: Prefix, uuid: Uuid, enabled: bool): AccessPointOptions {
    AccessPointOptions(IdOr(o.id, Standalone, o.ssid), uuid, o.iface, o.ssid, o.password,
                       PrefixText(prefix), Standalone, enabled, o.priority, o.band)
  }

  /** Rebuilding a standalone profile builds from the values it was read with. */
  lemma RebuildsStandalone(p: Profile, current: Tree, secrets: Tree, enabled: bool, generated: Uuid,
                           password: string, address: string)
    requires Wireless in current && p.role == Standalone
    requires ProfilePsk(current, secrets) == Ok(password) && ProfileAddress(current) == Ok(address)
    ensures RebuildOwned(p, current, secrets, enabled, generated) ==
            BuildAccessPoint(
              AccessPointOptions(p.id, p.uuid, p.iface, p.ssid, password, address, Standalone, enabled, p.priority,
                                 StringAt(Lookup(current, Wireless, Band))), generated)
  {
  }

  lemma StandaloneReadsOptions(o: AccessPointOptions, prefix: Prefix, uuid: Uuid, current: Tree, secrets: Tree,
                               inMemory: bool, enabled: bool, generated: Uuid)
    requires o.role == Standalone && prefix.bits <= 32 && o.password != ""
    requires ReadsBack(AccessPointTree(o, prefix, uuid), current, secrets, o.password)
    ensures RebuildOwned(DecodeProfile(current, inMemory), current, secrets, enabled, generated) ==
            BuildAccessPoint(AgainOptions(o, prefix, uuid, enabled), generated)
  {
    DecodedAccessPoint(o, prefix, uuid, current, secrets, inMemory);
    PskReadsBack(AccessPointTree(o, prefix, uuid), current, secrets, o.password);
    RebuildsStandalone(DecodeProfile(current, inMemory), current, secrets, enabled, generated, o.password,
                       PrefixText(prefix));
  }

  lemma AcceptedAccessPoint(o: AccessPointOptions, generated: Uuid)
    requires BuildAccessPoint(o, generated).Ok?
    ensures ParseAddress(o.address).Some? && ParseAddress(o.address).value.bits <= 32 && o.password != ""
    ensures var (built, uuid) := BuildAccessPoint(o, generated).value;
            built == AccessPointTree(o, ParseAddress(o.address).value, uuid)
  {
  }

  lemma AgainBuildsTheSame(o: AccessPointOptions, generated: Uuid, enabled: bool, generated': Uuid)
    requires ValidUuid(generated) && Lower(generated) == generated
    requires BuildAccessPoint(o, generated).Ok? && o.role == Standalone
    ensures var (prefix, uuid) := (ParseAddress(o.address).value, BuildAccessPoint(o, generated).value.1);
            BuildAccessPoint(AgainOptions(o, prefix, uuid, enabled), generated') ==
            BuildAccessPoint(o.(autoconnect := enabled), generated)
  {
    var uuid := BuildAccessPoint(o, generated).value.1;
    var prefix := ParseAddress(o.address).value;
    var again := AgainOptions(o, prefix, uuid, enabled);
    UuidSettles(o.uuid, generated, generated');
    PrefixRoundTrip(prefix);
    AgainIsAccepted(o, prefix, uuid, enabled);
    FlagKeepsBuilding(o, generated, enabled);
  }

  lemma AgainIsAccepted(o: AccessPointOptions, prefix: Prefix, uuid: Uuid, enabled: bool)
    requires AccessPointError(o).None? && o.role == Standalone
    ensures var again := AgainOptions(o, prefix, uuid, enabled);
            AccessPointError(again).None? &&
            AccessPointTree(again, prefix, uuid) == AccessPointTree(o.(autoconnect := enabled), prefix, uuid)
  {
    IdSettles(o.id, Standalone, o.ssid);
  }

  lemma StandaloneRoundTrip(o: AccessPointOptions, generated: Uuid, current: Tree, secrets: Tree,
                            inMemory: bool, enabled: bool, generated': Uuid)
    requires ValidUuid(generated) && Lower(generated) == generated
    requires BuildAccessPoint(o, generated).Ok? && o.role == Standalone
    requires ReadsBack(BuildAccessPoint(o, generated).value.0, current, secrets, o.password)
    ensures RebuildOwned(DecodeProfile(current, inMemory), current, secrets, enabled, generated') ==
            BuildAccessPoint(o.(autoconnect := enabled), generated)
  {
    var (built, uuid) := BuildAccessPoint(o, generated).value;
    AcceptedAccessPoint(o, generated);
    StandaloneReadsOptions(o, ParseAddress(o.address).value, uuid, current, secrets, inMemory, enabled, generated');
    AgainBuildsTheSame(o, generated, enabled, generated');
  }

  function OwnSecrets(password: string): Tree {
    map[Security := PskSection(password)]
  }

  /** What a built access point decodes to as it stands. */
  lemma BuiltAccessPointDecodes(o: AccessPointOptions, generated: Uuid, inMemory: bool)
    requires BuildAccessPoint(o, generated).Ok?
    ensures ResolveUuid(o.uuid, generated).Ok?
    ensures DecodeProfile(BuildAccessPoint(o, generated).value.0, inMemory) ==
            Profile(ResolveUuid(o.uuid, generated).value, IdOr(o.id, o.role, o.ssid), WIFI, o.iface, o.ssid, "ap",
                    o.autoconnect, o.priority, true, o.role, false, inMemory)
  {
    var prefix, uuid := ParseAddress(o.address).value, ResolveUuid(o.uuid, generated).value;
    OwnTreeReadsBack(o, prefix, uuid);
    DecodedAccessPoint(o, prefix, uuid, AccessPointTree(o, prefix, uuid), OwnSecrets(o.password), inMemory);
  }

  lemma OwnTreeReadsBack(o: AccessPointOptions, prefix: Prefix, uuid: Uuid)
    ensures var built := AccessPointTree(o, prefix, uuid);
            ReadsBack(built, built, OwnSecrets(o.password), o.password)
  {
  }

  /** The effect the store model gives an autoconnect update is what the rebuilt settings
      decode to. */
  lemma RebuildDecodesToRebuilt(o: InfrastructureOptions, generated: Uuid, current: Tree, secrets: Tree,
                                inMemory: bool, enabled: bool, generated': Uuid)
    requires ValidUuid(generated) && Lower(generated) == generated
    requires BuildInfrastructure(o, generated).Ok?
    requires ReadsBack(BuildInfrastructure(o, generated).value.0, current, secrets, o.password)
    ensures var p := DecodeProfile(current, inMemory);
            var rebuilt := RebuildOwned(p, current, secrets, enabled, generated');
            rebuilt.Ok? && DecodeProfile(rebuilt.value.0, inMemory) == Rebuilt(p, enabled)
  {
    var rebuilt := RebuildOwned(DecodeProfile(current, inMemory), current, secrets, enabled, generated');
    assert rebuilt == BuildInfrastructure(o.(autoconnect := enabled, pending := false), generated) by {
      InfrastructureRoundTrip(o, generated, current, secrets, inMemory, enabled, generated');
    }
    FlagKeepsInfrastructure(o, generated, enabled);
    InfrastructureDecodesTwice(o, BuildInfrastructure(o, generated).value.1, current, secrets, inMemory, enabled);
  }

  lemma FlagKeepsInfrastructure(o: InfrastructureOptions, generated: Uuid, enabled: bool)
    requires BuildInfrastructure(o, generated).Ok?
    ensures var uuid := BuildInfrastructure(o, generated).value.1;
            BuildInfrastructure(o.(autoconnect := enabled, pending := false), generated) ==
            Ok((InfrastructureTree(o.(autoconnect := enabled, pending := false), uuid), uuid))
  {
    assert InfrastructureError(o) == InfrastructureError(o.(autoconnect := enabled, pending := false));
  }

  lemma InfrastructureDecodesTwice(o: InfrastructureOptions, uuid: Uuid, current: Tree, secrets: Tree,
                                   inMemory: bool, enabled: bool)
    requires ReadsBack(InfrastructureTree(o, uuid), current, secrets, o.password)
    ensures DecodeProfile(InfrastructureTree(o.(autoconnect := enabled, pending := false), uuid), inMemory) ==
            Rebuilt(DecodeProfile(current, inMemory), enabled)
  {
    var o' := o.(autoconnect := enabled, pending := false);
    DecodedInfrastructure(o, uuid, current, secrets, inMemory);
    DecodedInfrastructure(o', uuid, InfrastructureTree(o', uuid), OwnSecrets(o.password), inMemory);
    IdSettles(o.id, Infrastructure, o.ssid);
  }

  lemma FlagKeepsBuilding(o: AccessPointOptions, generated: Uuid, enabled: bool)
    requires BuildAccessPoint(o, generated).Ok?
    ensures var uuid := BuildAccessPoint(o, generated).value.1;
            ParseAddress(o.address).Some? &&
            BuildAccessPoint(o.(autoconnect := enabled), generated) ==
            Ok((AccessPointTree(o.(autoconnect := enabled), ParseAddress(o.address).value, uuid), uuid))
  {
    assert AccessPointError(o) == AccessPointError(o.(autoconnect := enabled));
  }

  lemma StandaloneDecodesTwice(o: AccessPointOptions, prefix: Prefix, uuid: Uuid, current: Tree, secrets: Tree,
                               inMemory: bool, enabled: bool)
    requires o.role == Standalone && prefix.bits <= 32
    requires ReadsBack(AccessPointTree(o, prefix, uuid), current, secrets, o.password)
    ensures DecodeProfile(AccessPointTree(o.(autoconnect := enabled), prefix, uuid), inMemory) ==
            Rebuilt(DecodeProfile(current, inMemory), enabled)
  {
    var o' := o.(autoconnect := enabled);
    var id := IdOr(o.id, Standalone, o.ssid);
    assert DecodeProfile(current, inMemory) ==
           Profile(uuid, id, WIFI, o.iface, o.ssid, "ap", o.autoconnect, o.priority, true, Standalone, false, inMemory) by {
      DecodedAccessPoint(o, prefix, uuid, current, secrets, inMemory);
    }
    assert DecodeProfile(AccessPointTree(o', prefix, uuid), inMemory) ==
           Profile(uuid, id, WIFI, o.iface, o.ssid, "ap", enabled, o.priority, true, Standalone, false, inMemory) by {
      OwnTreeReadsBack(o', prefix, uuid);
      DecodedAccessPoint(o', prefix, uuid, AccessPointTree(o', prefix, uuid), OwnSecrets(o.password), inMemory);
    }
    IdSettles(o.id, Standalone, o.ssid);
  }

  /** The same for a standalone access point. */
  lemma StandaloneRebuildDecodes(o: AccessPointOptions, generated: Uuid, current: Tree, secrets: Tree,
                                 inMemory: bool, enabled: bool, generated': Uuid)
    requires ValidUuid(generated) && Lower(generated) == generated
    requires BuildAccessPoint(o, generated).Ok? && o.role == Standalone
    requires ReadsBack(BuildAccessPoint(o, generated).value.0, current, secrets, o.password)
    ensures var rebuilt := RebuildOwned(DecodeProfile(current, inMemory), current, secrets, enabled, generated');
            rebuilt.Ok? && DecodeProfile(rebuilt.value.0, inMemory) == Rebuilt(DecodeProfile(current, inMemory), enabled)
  {
    var rebuilt := RebuildOwned(DecodeProfile(current, inMemory), current, secrets, enabled, generated');
    assert rebuilt == BuildAccessPoint(o.(autoconnect := enabled), generated) by {
      StandaloneRoundTrip(o, generated, current, secrets, inMemory, enabled, generated');
    }
    FlagKeepsBuilding(o, generated, enabled);
    StandaloneDecodesTwice(o, ParseAddress(o.address).value, BuildAccessPoint(o, generated).value.1, current, secrets,
                           inMemory, enabled);
  }

  /** What NetworkManager is asked for when a network is added: a Wi-Fi client with automatic
      addresses, protected by exactly the passphrase unless it is open. */
  lemma {:induction false} NetworkIsAskedFor(o: InfrastructureOptions, generated: Uuid)
    requires BuildInfrastructure(o, generated).Ok?
    ensures var (c, uuid) := BuildInfrastructure(o, generated).value;
            && Lookup(c, Connection, Type) == Some(Str("802-11-wireless"))
            && Lookup(c, Connection, UuidKey) == Some(Str(uuid))
            && Lookup(c, Wireless, Mode) == Some(Str("infrastructure"))
            && Lookup(c, Wireless, Ssid) == Some(Bytes(o.ssid)) && Lookup(c, Wireless, Hidden) == Some(Bool(o.hidden))
            && Lookup(c, Ipv4, Method) == Some(Str("auto")) && Lookup(c, Ipv6, Method) == Some(Str("auto"))
            && Lookup(c, Security, KeyMgmt) == (if o.open then None else Some(Str("wpa-psk")))
            && Lookup(c, Security, Psk) == (if o.open then None else Some(Str(o.password)))
  {
  }

  /** What marks a profile as one of onboardd's. */
  function Marks(role: string, pending: bool): map<Mark, string> {
    if pending then map[OwnerMark := "onboardd", RoleMark := role, SchemaMark := "1", PendingMark := "true"]
    else map[OwnerMark := "onboardd", RoleMark := role, SchemaMark := "1"]
  }

  /** It is named after the network unless it was given a name, and marked as onboardd's. */
  lemma {:induction false} NetworkIsMarked(o: InfrastructureOptions, generated: Uuid)
    requires BuildInfrastructure(o, generated).Ok?
    ensures var (c, uuid) := BuildInfrastructure(o, generated).value;
            && Lookup(c, Connection, Id) == Some(Str(if o.id == "" then "onboardd Wi-Fi " + o.ssid else o.id))
            && Lookup(c, Connection, InterfaceName) == Some(Str(o.iface))
            && Lookup(c, Connection, Autoconnect) == Some(Bool(o.autoconnect))
            && Lookup(c, Connection, AutoconnectPriority) == Some(Int32(o.priority))
            && Lookup(c, User, Data) == Some(Dict(Marks("infrastructure", o.pending)))
  {
    var (c, uuid) := BuildInfrastructure(o, generated).value;
    InfrastructureAnswers(o, uuid);
    assert Metadata(Infrastructure, o.pending)[Data] == Dict(Marks("infrastructure", o.pending));
  }

  /** A tree that asks for an access point with these values. */
  ghost predicate AsksForAccessPoint(c: Tree, uuid: Uuid, ssid: string, password: string) {
    && Lookup(c, Connection, Type) == Some(Str("802-11-wireless")) && Lookup(c, Connection, UuidKey) == Some(Str(uuid))
    && Lookup(c, Wireless, Mode) == Some(Str("ap")) && Lookup(c, Wireless, Ssid) == Some(Bytes(ssid))
    && Lookup(c, Ipv4, Method) == Some(Str("shared")) && Lookup(c, Ipv6, Method) == Some(Str("disabled"))
    && Lookup(c, Security, KeyMgmt) == Some(Str("wpa-psk")) && Lookup(c, Security, Psk) == Some(Str(password))
  }

  lemma {:induction false} AccessPointTreeAsks(o: AccessPointOptions, prefix: Prefix, uuid: Uuid)
    ensures AsksForAccessPoint(AccessPointTree(o, prefix, uuid), uuid, o.ssid, o.password)
  {
  }

  /** And for an access point: one that shares its own address with its clients and is always
      protected. */
  lemma {:induction false} AccessPointIsAskedFor(o: AccessPointOptions, generated: Uuid)
    requires BuildAccessPoint(o, generated).Ok?
    ensures var (c, uuid) := BuildAccessPoint(o, generated).value; AsksForAccessPoint(c, uuid, o.ssid, o.password)
  {
    AcceptedAccessPoint(o, generated);
    AccessPointTreeAsks(o, ParseAddress(o.address).value, BuildAccessPoint(o, generated).value.1);
  }

  lemma {:induction false} AccessPointIsMarked(o: AccessPointOptions, generated: Uuid)
    requires BuildAccessPoint(o, generated).Ok?
    ensures var (c, uuid) := BuildAccessPoint(o, generated).value;
            var name := if o.role == Standalone then "standalone" else "provisioning";
            && Lookup(c, Connection, Id) == Some(Str(if o.id == "" then "onboardd " + name else o.id))
            && Lookup(c, Connection, InterfaceName) == Some(Str(o.iface))
            && Lookup(c, Connection, Autoconnect) == Some(Bool(o.autoconnect))
            && Lookup(c, Connection, AutoconnectPriority) == Some(Int32(o.priority))
            && Lookup(c, User, Data) == Some(Dict(Marks(name, false)))
  {
    AcceptedAccessPoint(o, generated);
    AccessPointAnswers(o, ParseAddress(o.address).value, BuildAccessPoint(o, generated).value.1);
    assert Metadata(o.role, false)[Data] ==
           Dict(Marks(if o.role == Standalone then "standalone" else "provisioning", false));
  }

  /** A profile without onboardd's mark is foreign, one without an autoconnect flag connects by
      itself, and one whose role is not a known one has none. */
  lemma {:induction false} BareProfile(c: Tree, inMemory: bool)
    ensures var p := DecodeProfile(c, inMemory);
            var marks := MarksAt(Lookup(c, User, Data));
            && (p.owned <==> OwnerMark in marks && marks[OwnerMark] == "onboardd")
            && (p.pending <==> PendingMark in marks && marks[PendingMark] == "true")
            && (p.role == Standalone <==> RoleMark in marks && marks[RoleMark] == "standalone")
            && (p.role == Provisioning <==> RoleMark in marks && marks[RoleMark] == "provisioning")
            && (p.role == Infrastructure <==> RoleMark in marks && marks[RoleMark] == "infrastructure")
            && (RoleMark !in marks ==> p.role == Other(""))
            && (p.autoconnect <==> Lookup(c, Connection, Autoconnect) != Some(Bool(false)))
            && (Lookup(c, Connection, AutoconnectPriority).None? ==> p.priority == 0)
            && (Lookup(c, Wireless, Ssid).None? ==> p.ssid == "")
            && (Lookup(c, Connection, Id).None? ==> p.id == "")
  {
  }

  /** Where a passphrase comes from: the secrets when they have one, and else the settings. */
  lemma {:induction false} PskComesFrom(current: Tree, secrets: Tree, password: string)
    requires password != ""
    ensures ProfilePsk(current, secrets) == Ok(password) <==>
            || Lookup(secrets, Security, Psk) == Some(Str(password))
            || (Lookup(current, Security, Psk) == Some(Str(password)) && PskMissing(secrets))
  {
  }

  ghost predicate PskMissing(c: Tree) {
    forall p: string | p != "" :: Lookup(c, Security, Psk) != Some(Str(p))
  }

  /** A network whose visibility is not recorded is rebuilt as a visible one, and one without a
      passphrase anywhere cannot be rebuilt. */
  lemma {:induction false} NetworkRebuilt(p: Profile, current: Tree, secrets: Tree, enabled: bool, generated: Uuid)
    requires p.role == Infrastructure
    ensures Wireless !in current ==> RebuildOwned(p, current, secrets, enabled, generated).Err?
    ensures Wireless in current && Security !in current ==>
            RebuildOwned(p, current, secrets, enabled, generated) ==
            BuildInfrastructure(InfrastructureOptions(
              p.id, p.uuid, p.iface, p.ssid, "", true, Lookup(current, Wireless, Hidden) == Some(Bool(true)),
              enabled, p.priority, false), generated)
    ensures Security in current && PskMissing(current) && PskMissing(secrets) ==>
            RebuildOwned(p, current, secrets, enabled, generated).Err?
  {
    if PskMissing(current) && PskMissing(secrets) { PskNowhere(current, secrets); }
  }

  lemma {:induction false} PskNowhere(current: Tree, secrets: Tree)
    requires PskMissing(current) && PskMissing(secrets)
    ensures ProfilePsk(current, secrets).Err?
  {
    assert StringAt(Lookup(current, Security, Psk)) == "";
    assert StringAt(Lookup(secrets, Security, Psk)) == "";
  }

  /** An address is read back exactly from an entry that has a text and a length of at most 32. */
  lemma {:induction false} AddressComesFrom(current: Tree)
    ensures ProfileAddress(current).Ok? <==>
            exists list :: Lookup(current, Ipv4, AddressDataKey) == Some(AddressData(list)) && list != [] && Usable(list[0])
  {
  }

  ghost predicate Usable(entry: Values) {
    exists text, bits {:trigger Str(text), UInt32(bits)} ::
      text != "" && bits <= 32 && Address in entry && entry[Address] == Str(text) &&
      PrefixKey in entry && entry[PrefixKey] == UInt32(bits)
  }

  /** A passphrase has 8 to 63 bytes; a key in full is 64 hexadecimal digits. */
  lemma {:induction false} PassphraseOrKey(password: string)
    ensures ValidPsk(password) <==>
            || 8 <= |password| <= 63
            || (|password| == 64 && forall i :: 0 <= i < 64 ==> HexValue(password[i]) >= 0)
  {
    LowerKeepsValues(password);
  }

  /** Which networks can be built. */
  lemma {:induction false} NetworkIsAccepted(o: InfrastructureOptions, generated: Uuid)
    ensures BuildInfrastructure(o, generated).Ok? <==>
            && o.iface != "" && 1 <= |o.ssid| <= 32 && -999 <= o.priority <= 999
            && (if o.open then o.password == "" else ValidPsk(o.password))
            && (o.uuid == "" || ValidUuid(o.uuid))
  {
  }

  /** Which access points can be built. */
  lemma {:induction false} AccessPointIsAccepted(o: AccessPointOptions, generated: Uuid)
    ensures BuildAccessPoint(o, generated).Ok? <==>
            && (o.role == Provisioning || o.role == Standalone)
            && o.iface != "" && 1 <= |o.ssid| <= 32 && -999 <= o.priority <= 999
            && ValidPsk(o.password)
            && (o.band == "" || o.band == "bg" || o.band == "a" || o.band == "6GHz")
            && ParseAddress(o.address).Some? && (o.uuid == "" || ValidUuid(o.uuid))
  {
  }
}

/** The config registry: one directory, shared by any number of adders, listers and removers. */
module Registry {
  import opened Base
  import opened Bytes
  import opened UlidText

  // ---------- file names ----------

  const JSON := ".json"
  const STAGING := ".staging"

  function Final(id: Id): string {
    ToText(id) + JSON
  }

  function Staging(id: Id): string {
    Final(id) + STAGING
  }

  predicate HasSuffix(s: string, suffix: string) {
    |suffix| <= |s| && s[|s| - |suffix|..] == suffix
  }

  function TrimSuffix(s: string, suffix: string): string {
    if HasSuffix(s, suffix) then s[..|s| - |suffix|] else s
  }

  /** What List shows and countConfigs counts. */
  predicate IsListed(name: string) {
    HasSuffix(name, JSON) && ParseStrict(TrimSuffix(name, JSON)).Some?
  }

  function ListedId(name: string): (id: Id)
    requires IsListed(name)
  {
    TextReadBack(TrimSuffix(name, JSON));
    ParseStrict(TrimSuffix(name, JSON)).value
  }

  type Dir = map<string, Text>

  function Listed(dir: Dir): set<string> {
    set name | name in dir && IsListed(name)
  }

  /** A published name is listed, under its own id; a staged name is not. */
  lemma NamesApart(id: Id)
    ensures IsListed(Final(id)) && ListedId(Final(id)) == id && !IsListed(Staging(id))
  {
    hide Digits;
    TextRoundTrip(id);
    assert TrimSuffix(Final(id), JSON) == ToText(id);
    var n := |Staging(id)|;
    assert Staging(id)[n - 1] == 'g' && JSON[4] == 'n';
    assert Staging(id)[n - |JSON|..][4] == 'g';
  }

  lemma NamesUnique(a: Id, b: Id)
    ensures Final(a) == Final(b) <==> a == b
    ensures Staging(a) == Staging(b) <==> a == b
    ensures Final(a) != Staging(b)
  {
    NamesApart(a);
    NamesApart(b);
    if Staging(a) == Staging(b) {
      assert Staging(a)[..|Final(a)|] == Staging(b)[..|Final(b)|];
    }
  }

  /** A listed name is the file of the id it is listed under exactly if it is in upper case. */
  lemma OwnNameIffUpper(name: string)
    requires IsListed(name)
    ensures name == Final(ListedId(name)) <==> UpperAll(TrimSuffix(name, JSON)) == TrimSuffix(name, JSON)
  {
    hide ToText;
    var stem := TrimSuffix(name, JSON);
    TextReadBack(stem);
    assert name == stem + JSON;
    assert Final(ListedId(name))[..SIZE] == ToText(ListedId(name)) && name[..SIZE] == stem;
  }

  // ---------- one Add, step by step ----------

  datatype Config = Config(pathSafe: Text -> bool, inboundSafe: Text -> bool, maxConfigs: nat) {
    predicate Vets(json: Text) {
      pathSafe(json) && inboundSafe(json)
    }
  }

  datatype AddError =
    | PathUnsafe | InboundUnsafe | IoError | QuotaExceeded | Internal | ValidationTimeout | ConfigInvalid

  datatype AddResult = Added(id: Id) | Refused(error: AddError)

  datatype Verdict = Accepts | Rejects | TimesOut | Breaks

  datatype Pc =
    | Idle
    | Vet(json: Text)
    | MakeDir(json: Text)
    | Count(json: Text)
    | MakeId(json: Text)
    | Write(json: Text, id: Id)
    | Test(json: Text, id: Id)
    | Publish(json: Text, id: Id)
    | Unlink(json: Text, id: Id, why: AddError)

  /** How a step that can go more than one way goes. */
  datatype Outcome = Works | Fails | Fresh(id: Id) | Says(verdict: Verdict)

  datatype Turn = Turn(dir: Dir, pc: Pc, result: Option<AddResult>)

  predicate OutcomeFits(pc: Pc, o: Outcome) {
    match pc
    case Idle => false
    case Vet(_) => o.Works?
    case MakeId(_) => o.Fresh? || o.Fails?
    case Test(_, _) => o.Says?
    case _ => o.Works? || o.Fails?
  }

  function Refuse(dir: Dir, error: AddError): Turn {
    Turn(dir, Idle, Some(Refused(error)))
  }

  /** One step of an Add. A failed write leaves no file; a failed unlink leaves the staged one. */
  function AddNext(c: Config, dir: Dir, pc: Pc, o: Outcome): Turn
    requires OutcomeFits(pc, o)
    requires pc.Publish? ==> Staging(pc.id) in dir
  {
    match pc
    case Vet(json) =>
      if !c.pathSafe(json) then Refuse(dir, PathUnsafe)
      else if !c.inboundSafe(json) then Refuse(dir, InboundUnsafe)
      else Turn(dir, MakeDir(json), None)
    case MakeDir(json) =>
      if o.Fails? then Refuse(dir, IoError) else Turn(dir, Count(json), None)
    case Count(json) =>
      if o.Fails? then Refuse(dir, IoError)
      else if CountOf(dir) >= c.maxConfigs then Refuse(dir, QuotaExceeded)
      else Turn(dir, MakeId(json), None)
    case MakeId(json) =>
      if o.Fails? then Refuse(dir, Internal) else Turn(dir, Write(json, o.id), None)
    case Write(json, id) =>
      if o.Fails? then Refuse(dir, IoError) else Turn(dir[Staging(id) := json], Test(json, id), None)
    case Test(json, id) =>
      (match o.verdict
       case Accepts => Turn(dir, Publish(json, id), None)
       case Rejects => Turn(dir, Unlink(json, id, ConfigInvalid), None)
       case TimesOut => Turn(dir, Unlink(json, id, ValidationTimeout), None)
       case Breaks => Turn(dir, Unlink(json, id, Internal), None))
    case Publish(json, id) =>
      if o.Fails? then Turn(dir, Unlink(json, id, IoError), None)
      else Turn((dir - {Staging(id)})[Final(id) := dir[Staging(id)]], Idle, Some(Added(id)))
    case Unlink(_, id, why) =>
      if o.Fails? then Refuse(dir, why) else Refuse(dir - {Staging(id)}, why)
  }

  function CountOf(dir: Dir): nat {
    |Listed(dir)|
  }
}

/**
 * The ADO.NET parameter objects that the materializer creates, fills in and
 * returns. A parameter is a mutable object; its observable state is the
 * record ParamData.
 */
module DbParameters {
  import opened Wrappers

  /** The value a parameter carries: C# null, DBNull.Value, or an ordinary value. */
  datatype Value = Null | DbNull | Val(v: int)

  datatype ParameterDirection = Input | Output | InputOutput | ReturnValue

  /** A System.Data.DbType; which members exist does not matter to the core. */
  datatype DbType = DbType(code: nat)

  /** The observable state of a DbParameter. `dbType` is None while nothing has set it. */
  datatype ParamData = ParamData(name: string, direction: ParameterDirection, value: Value, dbType: Option<DbType>)

  /** An Action<DbParameter>: whatever it does to a parameter is a function of its state. */
  type Modifier = ParamData -> ParamData

  /** The state of a parameter freshly returned by IDatabaseManager.CreateParameter: no name, Input, a null value and an unset DbType. */
  function Blank(): (p: ParamData)
    ensures p.value == Null && p.direction == Input && p.dbType == None
  {
    ParamData("", Input, Null, None)
  }

  class DbParameter {
    var name: string
    var direction: ParameterDirection
    var value: Value
    var dbType: Option<DbType>

    function Data(): ParamData
      reads this
    {
      ParamData(name, direction, value, dbType)
    }

    /** IDatabaseManager.CreateParameter: a fresh parameter in its default state. */
    constructor ()
      ensures Data() == Blank()
    {
      name, direction, value, dbType := "", Input, Null, None;
    }

    /** Invoking an Action<DbParameter> on this parameter. */
    method Modify(m: Modifier)
      modifies this
      ensures Data() == m(old(Data()))
    {
      var d := m(Data());
      name, direction, value, dbType := d.name, d.direction, d.value, d.dbType;
    }
  }

  /** The states of a sequence of parameter objects. */
  function Datas(ps: seq<DbParameter>): (r: seq<ParamData>)
    reads ps
    ensures |r| == |ps| && forall k :: 0 <= k < |ps| ==> r[k] == ps[k].Data()
  {
    seq(|ps|, k reads ps requires 0 <= k < |ps| => ps[k].Data())
  }
}

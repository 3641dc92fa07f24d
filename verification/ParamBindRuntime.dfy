/**
  MySQL_ParamBind and the setters over it, updating the three arrays and the
  map of blobs in place. Every method is proved to make the step of
  ParamBinds that carries its name.
  */
module ParamBindRuntime {
  import opened Basics
  import P = ParamBinds
  import opened ParamBinds

  class ParamBind {
    const bind: array<Bind>
    const valueSet: array<bool>
    const owns: array<bool>
    var blobs: map<nat, Blob>
    var deleted: seq<Blob>

    ghost predicate Valid()
      reads this
    {
      && bind.Length == valueSet.Length == owns.Length
      && valueSet != owns
      && forall i | i in blobs :: i < owns.Length
    }

    ghost function View(): State
      reads this, bind, valueSet, owns
    {
      State(bind[..], valueSet[..], owns[..], blobs, deleted)
    }

    constructor (paramCount: nat)
      ensures Valid() && fresh(bind) && fresh(valueSet) && fresh(owns)
      ensures View() == P.Fresh(paramCount)
    {
      bind := new Bind[paramCount](_ => FRESH.(isNull := false));
      valueSet := new bool[paramCount];
      owns := new bool[paramCount];
      blobs, deleted := map[], [];
      new;
      for i := 0 to paramCount
        invariant blobs == map[] && deleted == []
        invariant forall j | 0 <= j < i :: bind[j] == FRESH && !valueSet[j] && !owns[j]
        invariant forall j | i <= j < paramCount :: bind[j] == FRESH.(isNull := false)
      {
        bind[i] := bind[i].(isNull := true);
        valueSet[i] := false;
        owns[i] := false;
      }
      assert bind[..] == P.Fresh(paramCount).bind;
    }

    /** BlobBindDeleter on the entry of the map. */
    method DeleteEntry(i: nat)
      requires i in blobs
      modifies this
      ensures deleted == P.Delete(old(deleted), old(blobs[i]))
      ensures blobs == old(blobs)[i := NoBlob]
    {
      if blobs[i] != NoBlob {
        deleted := deleted + [blobs[i]];
        blobs := blobs[i := NoBlob];
      }
    }

    method Set(i: nat)
      requires Valid() && i < valueSet.Length
      modifies valueSet
      ensures Valid() && View() == P.Set(old(View()), i)
    {
      valueSet[i] := true;
    }

    method Unset(i: nat)
      requires Valid() && i < valueSet.Length
      modifies this, valueSet, owns
      ensures Valid() && View() == P.Unset(old(View()), i)
    {
      valueSet[i] := false;
      if owns[i] {
        owns[i] := false;
        if i !in blobs {
          blobs := blobs[i := NoBlob];
        }
        DeleteEntry(i);
        blobs := blobs - {i};
      }
    }

    method ResetBlobBind(i: nat)
      requires i < bind.Length
      modifies bind
      ensures bind[..] == old(bind[..])[i := P.ResetBlobBind(old(bind[i]))]
    {
      bind[i] := bind[i].(fieldType := LongBlobType);
      bind[i] := bind[i].(buffer := NoBuffer);
      bind[i] := bind[i].(bufferLength := 0);
      bind[i] := bind[i].(isNull := false);
      bind[i] := bind[i].(length := Length(0));
    }

    method SetBlob(i: nat, blob: Blob, deleteAfter: bool)
      requires Valid() && i < valueSet.Length
      modifies this, bind, valueSet, owns
      ensures Valid() && View() == P.SetBlob(old(View()), i, blob, deleteAfter)
    {
      Set(i);
      ResetBlobBind(i);
      if i in blobs && owns[i] {
        DeleteEntry(i);
      }
      if blob == NoBlob {
        if i in blobs {
          blobs := blobs - {i};
        }
        owns[i] := false;
      } else {
        blobs := blobs[i := blob];
        owns[i] := deleteAfter;
      }
    }

    method IsAllSet() returns (r: bool)
      requires Valid()
      ensures r <==> P.IsAllSet(View())
    {
      for i := 0 to valueSet.Length
        invariant forall j | 0 <= j < i :: valueSet[j]
      {
        if !valueSet[i] {
          assert !View().valueSet[i];
          return false;
        }
      }
      return true;
    }

    method ClearOne(i: nat)
      requires Valid() && i < valueSet.Length
      modifies this, bind, valueSet
      ensures Valid() && View() == P.ClearOne(old(View()), i)
    {
      bind[i] := bind[i].(length := NoLength);
      bind[i] := bind[i].(buffer := NoBuffer);
      if valueSet[i] {
        if i in blobs && owns[i] {
          DeleteEntry(i);
          blobs := blobs - {i};
        }
        blobs := blobs[i := NoBlob];
        valueSet[i] := false;
      }
    }

    method ClearParameters()
      requires Valid()
      modifies this, bind, valueSet
      ensures Valid() && View() == P.Clear(old(View()))
    {
      hide P.ClearOne;
      for i := 0 to bind.Length
        invariant Valid() && View() == ClearTo(old(View()), i)
      {
        ClearOne(i);
      }
    }

    /** The destructor. */
    method Destroy()
      requires Valid()
      modifies this, bind, valueSet, owns
      ensures Valid() && View() == P.Destroy(old(View()))
    {
      ClearParameters();
      ghost var cleared := View();
      for i := 0 to owns.Length
        invariant Valid() && View() == DestroyTo(cleared, i)
      {
        if i in blobs && owns[i] {
          owns[i] := false;
          DeleteEntry(i);
        }
      }
    }

    method GetBlobObject(i: nat) returns (r: Blob)
      ensures r == BlobAt(View(), i)
    {
      return if i in blobs then blobs[i] else NoBlob;
    }

    // -------------------------------------------------------------------
    // The setters; the result says whether the index was accepted
    // -------------------------------------------------------------------

    /** What every setter of a value does first: it drops the blob, then marks the position set. */
    method DropBlob(i: nat)
      requires Valid() && i < valueSet.Length
      modifies this, bind, valueSet, owns
      ensures Valid() && View() == P.Set(P.Unset(P.SetBlob(old(View()), i, NoBlob, false), i), i)
    {
      hide P.Set, P.Unset, P.SetBlob;
      SetBlob(i, NoBlob, false);
      Unset(i);
      Set(i);
    }

    /** Store p at position i of the bindings. */
    method Store(i: nat, p: Bind)
      requires Valid() && i < bind.Length
      modifies bind
      ensures Valid() && View() == old(View()).(bind := old(bind[..])[i := p])
    {
      bind[i] := p;
    }

    method SetInt(parameterIndex: nat, value: int) returns (ok: bool)
      requires Valid()
      modifies this, bind, valueSet, owns
      ensures Valid() && ok == (0 < parameterIndex <= bind.Length)
      ensures View() == Assign(old(View()), parameterIndex, Int(value))
    {
      hide P.Set, P.Unset, P.SetBlob;
      if parameterIndex == 0 || parameterIndex > bind.Length {
        return false;
      }
      var i := parameterIndex - 1;
      DropBlob(i);
      var p := bind[i].(fieldType := LongType, buffer := Word32(value % WORD32));
      Store(i, p.(bufferLength := 0, isNull := false, length := NoLength));
      return true;
    }

    method SetUInt(parameterIndex: nat, value: int) returns (ok: bool)
      requires Valid()
      modifies this, bind, valueSet, owns
      ensures Valid() && ok == (0 < parameterIndex <= bind.Length)
      ensures View() == Assign(old(View()), parameterIndex, UInt(value))
    {
      hide P.Set, P.Unset, P.SetBlob;
      if parameterIndex == 0 || parameterIndex > bind.Length {
        return false;
      }
      var i := parameterIndex - 1;
      DropBlob(i);
      var p := bind[i].(fieldType := LongType, buffer := Word32(value % WORD32));
      Store(i, p.(bufferLength := 0, isNull := false, isUnsigned := true, length := NoLength));
      return true;
    }

    method SetInt64(parameterIndex: nat, value: int) returns (ok: bool)
      requires Valid()
      modifies this, bind, valueSet, owns
      ensures Valid() && ok == (0 < parameterIndex <= bind.Length)
      ensures View() == Assign(old(View()), parameterIndex, Int64(value))
    {
      hide P.Set, P.Unset, P.SetBlob;
      if parameterIndex == 0 || parameterIndex > bind.Length {
        return false;
      }
      var i := parameterIndex - 1;
      DropBlob(i);
      var p := bind[i].(fieldType := LongLongType, buffer := Word64(value % WORD64));
      Store(i, p.(bufferLength := 0, isNull := false, length := NoLength));
      return true;
    }

    method SetUInt64(parameterIndex: nat, value: int) returns (ok: bool)
      requires Valid()
      modifies this, bind, valueSet, owns
      ensures Valid() && ok == (0 < parameterIndex <= bind.Length)
      ensures View() == Assign(old(View()), parameterIndex, UInt64(value))
    {
      hide P.Set, P.Unset, P.SetBlob;
      if parameterIndex == 0 || parameterIndex > bind.Length {
        return false;
      }
      var i := parameterIndex - 1;
      DropBlob(i);
      var p := bind[i].(fieldType := LongLongType, buffer := Word64(value % WORD64));
      Store(i, p.(bufferLength := 0, isNull := false, isUnsigned := true, length := NoLength));
      return true;
    }

    method SetDouble(parameterIndex: nat, value: real) returns (ok: bool)
      requires Valid()
      modifies this, bind, valueSet, owns
      ensures Valid() && ok == (0 < parameterIndex <= bind.Length)
      ensures View() == Assign(old(View()), parameterIndex, Double(value))
    {
      hide P.Set, P.Unset, P.SetBlob;
      if parameterIndex == 0 || parameterIndex > bind.Length {
        return false;
      }
      var i := parameterIndex - 1;
      DropBlob(i);
      var p := bind[i].(fieldType := DoubleType, buffer := Float(value));
      Store(i, p.(bufferLength := 0, isNull := false, length := NoLength));
      return true;
    }

    /** The null flag is not touched: the type NULL says it all. */
    method SetNull(parameterIndex: nat) returns (ok: bool)
      requires Valid()
      modifies this, bind, valueSet, owns
      ensures Valid() && ok == (0 < parameterIndex <= bind.Length)
      ensures View() == Assign(old(View()), parameterIndex, Null)
    {
      hide P.Set, P.Unset, P.SetBlob;
      if parameterIndex == 0 || parameterIndex > bind.Length {
        return false;
      }
      var i := parameterIndex - 1;
      DropBlob(i);
      Store(i, bind[i].(fieldType := NullType, buffer := NoBuffer, length := NoLength));
      return true;
    }

    /** A long string is bound by the address of the caller's string. */
    method SetString(parameterIndex: nat, address: nat, value: string) returns (ok: bool)
      requires Valid()
      modifies this, bind, valueSet, owns
      ensures Valid() && ok == (0 < parameterIndex <= bind.Length)
      ensures View() == Assign(old(View()), parameterIndex, Str(address, value))
    {
      hide P.Set, P.Unset, P.SetBlob;
      if parameterIndex == 0 || parameterIndex > bind.Length {
        return false;
      }
      var i := parameterIndex - 1;
      if |value| > MAX_STRING {
        SetBlob(i, Text(address), false);
        return true;
      }
      DropBlob(i);
      var p := bind[i].(fieldType := StringType, buffer := Chars(value + ['\0']));
      Store(i, p.(bufferLength := |value| + 1, isNull := false, length := Length(|value|)));
      return true;
    }

    method SetStream(parameterIndex: nat, blob: Blob) returns (ok: bool)
      requires Valid() && !blob.Text?
      modifies this, bind, valueSet, owns
      ensures Valid() && ok == (0 < parameterIndex <= bind.Length)
      ensures View() == Assign(old(View()), parameterIndex, InStream(blob))
    {
      hide P.Set, P.Unset, P.SetBlob;
      if parameterIndex == 0 || parameterIndex > bind.Length {
        return false;
      }
      SetBlob(parameterIndex - 1, blob, false);
      return true;
    }
  }
}

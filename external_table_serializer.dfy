/**
 * OrganizationExternalDatabaseTableStreamSerializer: a table of an
 * organization's external database on the wire as its seven fields, in a
 * fixed order.
 */
module ExternalTableSerializer {
  import opened Wrappers
  import opened Ints
  import opened Edm
  import opened Streams

  /** The fields of an OrganizationExternalDatabaseTable. */
  datatype OrganizationExternalDatabaseTable = OrganizationExternalDatabaseTable(
    id: Uuid,
    name: string,
    title: string,
    description: string,
    organizationId: Uuid,
    oid: int32,
    schema: string)

  /** The table's constructor, which takes the description as an Optional. */
  function NewTable(id: Uuid, name: string, title: string, description: Option<string>, organizationId: Uuid, oid: int32, schema: string): (t: OrganizationExternalDatabaseTable)
    ensures description.Some? ==> t.description == description.value
    ensures t.id == id && t.name == name && t.title == title && t.organizationId == organizationId && t.oid == oid && t.schema == schema
  {
    OrganizationExternalDatabaseTable(id, name, title, description.GetOr(""), organizationId, oid, schema)
  }

  /** What serialize writes: id, name, title, description, organization id, oid, schema. */
  function Encode(t: OrganizationExternalDatabaseTable): seq<Token>
  {
    UuidTokens(t.id) + [UtfToken(t.name), UtfToken(t.title), UtfToken(t.description)]
    + UuidTokens(t.organizationId) + [IntToken(t.oid), UtfToken(t.schema)]
  }

  /** The number of values serialize writes: two per UUID and one per other field. */
  const ENCODED_LENGTH: nat := 9

  /** The kinds deserialize reads from `pos`: UUID, UTF three times, UUID, Int, UTF. */
  predicate Layout(data: seq<Token>, pos: nat)
  {
    pos + ENCODED_LENGTH <= |data|
    && data[pos].LongToken? && data[pos + 1].LongToken?
    && data[pos + 2].UtfToken? && data[pos + 3].UtfToken? && data[pos + 4].UtfToken?
    && data[pos + 5].LongToken? && data[pos + 6].LongToken?
    && data[pos + 7].IntToken?
    && data[pos + 8].UtfToken?
  }

  /** What deserialize makes of the stream from `pos`: the first read that fails ends it. */
  function Decode(data: seq<Token>, pos: nat): Result<Read<OrganizationExternalDatabaseTable>>
  {
    var id :- ReadUuidAt(data, pos);
    var name :- ReadUtfAt(data, id.next);
    var title :- ReadUtfAt(data, name.next);
    var description :- ReadUtfAt(data, title.next);
    var orgId :- ReadUuidAt(data, description.next);
    var oid :- ReadIntAt(data, orgId.next);
    var schema :- ReadUtfAt(data, oid.next);
    Success(Read(NewTable(id.value, name.value, title.value, Some(description.value), orgId.value, oid.value, schema.value), schema.next))
  }

  /** serialize writes the seven fields in order, with the layout deserialize expects. */
  lemma EncodeLayout(t: OrganizationExternalDatabaseTable, prefix: seq<Token>, suffix: seq<Token>)
    ensures |Encode(t)| == ENCODED_LENGTH
    ensures Layout(prefix + Encode(t) + suffix, |prefix|)
    ensures Encode(t)[0] == LongToken(t.id.mostSigBits) && Encode(t)[1] == LongToken(t.id.leastSigBits)
    ensures Encode(t)[2] == UtfToken(t.name) && Encode(t)[3] == UtfToken(t.title) && Encode(t)[4] == UtfToken(t.description)
    ensures Encode(t)[5] == LongToken(t.organizationId.mostSigBits) && Encode(t)[6] == LongToken(t.organizationId.leastSigBits)
    ensures Encode(t)[7] == IntToken(t.oid) && Encode(t)[8] == UtfToken(t.schema)
  {
    var e := Encode(t);
    var data := prefix + e + suffix;
    forall j | 0 <= j < ENCODED_LENGTH
      ensures data[|prefix| + j] == e[j]
    {
    }
  }

  /** deserialize succeeds exactly when the stream holds the expected kinds from `pos`, and then reads nine values. */
  lemma DecodeSucceedsIff(data: seq<Token>, pos: nat)
    ensures Decode(data, pos).Success? <==> Layout(data, pos)
    ensures Decode(data, pos).Success? ==> Decode(data, pos).value.next == pos + ENCODED_LENGTH
  {
  }

  /**
   * Round trip: deserialize after serialize restores every field (the
   * description through a present Optional) and consumes exactly what was
   * written, leaving whatever follows.
   */
  lemma RoundTrip(t: OrganizationExternalDatabaseTable, prefix: seq<Token>, suffix: seq<Token>)
    ensures Decode(prefix + Encode(t) + suffix, |prefix|) == Success(Read(t, |prefix| + ENCODED_LENGTH))
  {
    var data := prefix + Encode(t) + suffix;
    EncodeLayout(t, prefix, suffix);
    assert data[|prefix|..|prefix| + ENCODED_LENGTH] == Encode(t);
    forall j | 0 <= j < ENCODED_LENGTH
      ensures data[|prefix| + j] == Encode(t)[j]
    {
    }
  }

  /** The companion's serialize. */
  method Serialize(output: ObjectDataOutput, obj: OrganizationExternalDatabaseTable)
    modifies output
    ensures output.written == old(output.written) + Encode(obj)
  {
    SerializeUuid(output, obj.id);
    output.WriteUtf(obj.name);
    output.WriteUtf(obj.title);
    output.WriteUtf(obj.description);
    SerializeUuid(output, obj.organizationId);
    output.WriteInt(obj.oid);
    output.WriteUtf(obj.schema);
  }

  /** The companion's deserialize. */
  method Deserialize(input: ObjectDataInput) returns (r: Result<OrganizationExternalDatabaseTable>)
    modifies input
    ensures Decode(input.data, old(input.pos)).Success? ==>
      r == Success(Decode(input.data, old(input.pos)).value.value) && input.pos == Decode(input.data, old(input.pos)).value.next
    ensures Decode(input.data, old(input.pos)).Failure? ==> r == Failure(Decode(input.data, old(input.pos)).error)
  {
    var id :- DeserializeUuid(input);
    var name :- input.ReadUtf();
    var title :- input.ReadUtf();
    var description :- input.ReadUtf();
    var orgId :- DeserializeUuid(input);
    var oid :- input.ReadInt();
    var schema :- input.ReadUtf();
    return Success(NewTable(id, name, title, Some(description), orgId, oid, schema));
  }

  class OrganizationExternalDatabaseTableStreamSerializer {
    constructor ()
    {
    }

    /** write delegates to serialize. */
    method Write(output: ObjectDataOutput, obj: OrganizationExternalDatabaseTable)
      modifies output
      ensures output.written == old(output.written) + Encode(obj)
    {
      Serialize(output, obj);
    }

    /** read delegates to deserialize. */
    method Read(input: ObjectDataInput) returns (r: Result<OrganizationExternalDatabaseTable>)
      modifies input
      ensures Decode(input.data, old(input.pos)).Success? ==>
        r == Success(Decode(input.data, old(input.pos)).value.value) && input.pos == Decode(input.data, old(input.pos)).value.next
      ensures Decode(input.data, old(input.pos)).Failure? ==> r == Failure(Decode(input.data, old(input.pos)).error)
    {
      r := Deserialize(input);
    }
  }
}

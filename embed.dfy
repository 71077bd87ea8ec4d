/** Embeds: the unit of presentation. An embed has an optional title and an
    ordered list of named fields; the bot builds each one with successive
    `addFields`/`addField` calls on a mutable builder. */
module Embeds {
  import opened Wrappers

  datatype Field = Field(name: string, value: string)

  datatype Embed = Embed(title: Option<string>, fields: seq<Field>)

  /** The field names, in order. */
  function Names(fs: seq<Field>): (ns: seq<string>)
    ensures |ns| == |fs|
    ensures forall i :: 0 <= i < |fs| ==> ns[i] == fs[i].name
  {
    seq(|fs|, i requires 0 <= i < |fs| => fs[i].name)
  }

  lemma NamesConcat(a: seq<Field>, b: seq<Field>)
    ensures Names(a + b) == Names(a) + Names(b)
  {
  }

  lemma NamesConcatThree(a: seq<Field>, b: seq<Field>, c: seq<Field>)
    ensures Names(a + b + c) == Names(a) + Names(b) + Names(c)
  {
    NamesConcat(a, b);
    NamesConcat(a + b, c);
  }

  /** The field when `present`, nothing otherwise: how the optional fields appear. */
  function When(present: bool, f: Field): (fs: seq<Field>)
    ensures |fs| == (if present then 1 else 0)
  {
    if present then [f] else []
  }

  /** The name of an optional field, when it is present. */
  function NameWhen(present: bool, name: string): seq<string>
  {
    if present then [name] else []
  }

  /** A position as the reports give it: `lat`/`lon` rendered as JavaScript
      prints them, and rendered with `toFixed(2)`. */
  datatype Coord = Coord(lat: string, lon: string, latFixed: string, lonFixed: string)

  /** The "Location" value: a map link followed by the rounded position. */
  function LocationText(c: Coord): string
  {
    "[Google Map](http://maps.google.com/maps?q=" + c.lat + "," + c.lon + ")"
      + " (" + c.latFixed + ", " + c.lonFixed + ")"
  }

  /** The embed builder (`EmbedBuilder`, `MessageEmbed`): each call appends
      one field at the end, or sets the title, and changes nothing else. */
  class EmbedBuilder {
    var title: Option<string>
    var fields: seq<Field>

    constructor ()
      ensures title == None && fields == []
    {
      title := None;
      fields := [];
    }

    method SetTitle(t: string)
      modifies this
      ensures title == Some(t) && fields == old(fields)
    {
      title := Some(t);
    }

    method AddField(name: string, value: string)
      modifies this
      ensures fields == old(fields) + [Field(name, value)] && title == old(title)
    {
      fields := fields + [Field(name, value)];
    }

    /** The embed built so far. */
    function Build(): Embed
      reads this
    {
      Embed(title, fields)
    }
  }
}

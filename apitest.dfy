/**
 * The record builder of `apitest.py`: it takes the map a callsign lookup
 * returned, fills a fixed set of contact fields, writes them as one ADI
 * record and wraps that record in the upload map `toCL`.
 */
module ApiTest {
  import opened Wrappers
  import opened Adif

  // The fixed contact details the script writes for every record.
  const Band := "40M"
  const Mode := "FT8"
  const Freq := "14.074000"
  const QsoDate := "20220415"
  const TimeOn := "170000"
  const TimeOff := "170100"
  const RstRcvd := "-10"
  /** Bound by the script but never written into the record. */
  const RstSent := "+11"
  const RstSentName := "rst_sent"
  const QslRcvd := "N"
  const QslSent := "N"

  /** The values of one contact, one per emitted field. */
  datatype Contact = Contact(
    call: string, band: string, mode: string, freq: string,
    qsoDate: string, timeOn: string, timeOff: string,
    rstRcvd: string, qslRcvd: string, qslSent: string,
    country: string, gridsquare: string, name: string, cnty: string,
    state: string, cont: string, qth: string)

  /** Indexing a map at an absent key raises `KeyError(key)`. */
  datatype ScriptError = KeyError(key: string)

  /** The lookup keys the script reads, in the order it reads them. */
  const LookupOrder: seq<string> := ["country", "grid", "nick", "us_county", "us_state", "continent", "adr_city"]

  /** The index of the first of `keys` missing from `m`, or `|keys|` when every one is present. */
  function FirstMissing(keys: seq<string>, m: map<string, string>): (i: nat)
    ensures i <= |keys|
    ensures i < |keys| ==> keys[i] !in m
    ensures forall k :: 0 <= k < i ==> keys[k] in m
  {
    if keys == [] then 0
    else if keys[0] !in m then 0
    else 1 + FirstMissing(keys[1..], m)
  }

  /**
   * The contact for `callsign`: the fixed details, then the fields read
   * from the lookup result in the order the script reads them; the first
   * key missing from `results` raises `KeyError`.
   */
  function ContactFromResults(callsign: string, results: map<string, string>): (r: Result<Contact, ScriptError>)
    ensures r.Ok? <==> forall k :: 0 <= k < |LookupOrder| ==> LookupOrder[k] in results
    ensures r.Err? ==> exists i :: 0 <= i < |LookupOrder| && LookupOrder[i] == r.error.key && r.error.key !in results &&
                                   forall k :: 0 <= k < i ==> LookupOrder[k] in results
  {
    var missing := FirstMissing(LookupOrder, results);
    if missing < |LookupOrder| then Err(KeyError(LookupOrder[missing]))
    else
      assert LookupOrder[0] in results && LookupOrder[1] in results && LookupOrder[2] in results &&
             LookupOrder[3] in results && LookupOrder[4] in results && LookupOrder[5] in results &&
             LookupOrder[6] in results;
      var state := results["us_state"];
      Ok(Contact(callsign, Band, Mode, Freq, QsoDate, TimeOn, TimeOff, RstRcvd, QslRcvd, QslSent,
                 results["country"], results["grid"], results["nick"], results["us_county"],
                 state, results["continent"], results["adr_city"] + ", " + state))
  }

  /** The record `cladif`, written out as one concatenation, field after field. */
  function Cladif(c: Contact): string
  {
    "<call:" + NatToDecimal(|c.call|) + ">" + c.call
    + "<band:" + NatToDecimal(|c.band|) + ">" + c.band
    + "<mode:" + NatToDecimal(|c.mode|) + ">" + c.mode
    + "<freq:" + NatToDecimal(|c.freq|) + ">" + c.freq
    + "<qso_date:" + NatToDecimal(|c.qsoDate|) + ">" + c.qsoDate
    + "<time_on:" + NatToDecimal(|c.timeOn|) + ">" + c.timeOn
    + "<time_off:" + NatToDecimal(|c.timeOff|) + ">" + c.timeOff
    + "<rst_rcvd:" + NatToDecimal(|c.rstRcvd|) + ">" + c.rstRcvd
    + "<qsl_rcvd:" + NatToDecimal(|c.qslRcvd|) + ">" + c.qslRcvd
    + "<qsl_sent:" + NatToDecimal(|c.qslSent|) + ">" + c.qslSent
    + "<country:" + NatToDecimal(|c.country|) + ">" + c.country
    + "<gridsquare:" + NatToDecimal(|c.gridsquare|) + ">" + c.gridsquare
    + "<name:" + NatToDecimal(|c.name|) + ">" + c.name
    + "<cnty:" + NatToDecimal(|c.cnty|) + ">" + c.cnty
    + "<state:" + NatToDecimal(|c.state|) + ">" + c.state
    + "<cont:" + NatToDecimal(|c.cont|) + ">" + c.cont
    + "<qth:" + NatToDecimal(|c.qth|) + ">" + c.qth
    + "<eor>"
  }

  /** The ADIF names of the emitted fields, in the order they are written. */
  const FieldNames: seq<string> := [
    "call", "band", "mode", "freq", "qso_date", "time_on", "time_off",
    "rst_rcvd", "qsl_rcvd", "qsl_sent",
    "country", "gridsquare", "name", "cnty", "state",
    "cont", "qth"]

  /** The (name, value) pairs of a contact, in emission order. */
  function ContactFields(c: Contact): (fs: seq<(string, string)>)
    ensures |fs| == |FieldNames|
    ensures forall i :: 0 <= i < |fs| ==> fs[i].0 == FieldNames[i]
  {
    [("call", c.call), ("band", c.band), ("mode", c.mode), ("freq", c.freq),
     ("qso_date", c.qsoDate), ("time_on", c.timeOn), ("time_off", c.timeOff),
     ("rst_rcvd", c.rstRcvd), ("qsl_rcvd", c.qslRcvd), ("qsl_sent", c.qslSent),
     ("country", c.country), ("gridsquare", c.gridsquare), ("name", c.name),
     ("cnty", c.cnty), ("state", c.state), ("cont", c.cont), ("qth", c.qth)]
  }

  /** The wrapper `toCL`: the placeholder key and profile, the type `adif` and the record. */
  function ToCL(cladif: string): (m: map<string, string>)
    ensures m.Keys == {"key", "station_profile_id", "type", "string"}
    ensures m["type"] == "adif" && m["string"] == cladif
  {
    map["key" := "YOUR_API_KEY",
        "station_profile_id" := "Station Profile ID Number",
        "type" := "adif",
        "string" := cladif]
  }

  /** The whole script after the lookup: the contact, its record and the wrapper. */
  function Script(callsign: string, results: map<string, string>): (r: Result<map<string, string>, ScriptError>)
    ensures r.Ok? <==> ContactFromResults(callsign, results).Ok?
    ensures r.Err? ==> r.error == ContactFromResults(callsign, results).error
  {
    match ContactFromResults(callsign, results)
    case Err(e) => Err(e)
    case Ok(c) => Ok(ToCL(Cladif(c)))
  }

  // ----------------------------------------------------------- properties

  /** Every emitted name is one the decoder can delimit. */
  lemma FieldNamesPlain()
    ensures forall i :: 0 <= i < |FieldNames| ==> PlainName(FieldNames[i])
  {
  }

  /**
   * The tags of the fixed details are `<`, the field name and `:`. The
   * script writes each tag as one literal; these equalities let
   * `CladifIsRecord` match it with `Field` without unfolding the literals.
   */
  lemma FixedTagSpelling()
    ensures "<call:" == "<" + "call" + ":"
    ensures "<band:" == "<" + "band" + ":"
    ensures "<mode:" == "<" + "mode" + ":"
    ensures "<freq:" == "<" + "freq" + ":"
    ensures "<qso_date:" == "<" + "qso_date" + ":"
    ensures "<time_on:" == "<" + "time_on" + ":"
    ensures "<time_off:" == "<" + "time_off" + ":"
    ensures "<rst_rcvd:" == "<" + "rst_rcvd" + ":"
    ensures "<qsl_rcvd:" == "<" + "qsl_rcvd" + ":"
    ensures "<qsl_sent:" == "<" + "qsl_sent" + ":"
  {
  }

  /** The tags of the looked-up fields are `<`, the field name and `:` (as `FixedTagSpelling`). */
  lemma LookupTagSpelling()
    ensures "<country:" == "<" + "country" + ":"
    ensures "<gridsquare:" == "<" + "gridsquare" + ":"
    ensures "<name:" == "<" + "name" + ":"
    ensures "<cnty:" == "<" + "cnty" + ":"
    ensures "<state:" == "<" + "state" + ":"
    ensures "<cont:" == "<" + "cont" + ":"
    ensures "<qth:" == "<" + "qth" + ":"
  {
  }

  /** The data-specifiers of `prefix`, then one more written out as the script writes it. */
  lemma WrittenField(prefix: seq<(string, string)>, name: string, value: string, tag: string)
    requires tag == "<" + name + ":"
    ensures Specifiers(prefix) + tag + NatToDecimal(|value|) + ">" + value == Specifiers(prefix + [(name, value)])
  {
    SpecifiersAppend(prefix, [(name, value)]);
    assert Specifiers([(name, value)]) == Field(name, value) + Specifiers([]);
  }

  /** The contact's fields, appended one at a time, are its field list. */
  lemma FieldsAppended(c: Contact)
    ensures [("call", c.call)] + [("band", c.band)] + [("mode", c.mode)] + [("freq", c.freq)] + [("qso_date", c.qsoDate)] + [("time_on", c.timeOn)] + [("time_off", c.timeOff)] + [("rst_rcvd", c.rstRcvd)] + [("qsl_rcvd", c.qslRcvd)] + [("qsl_sent", c.qslSent)] + [("country", c.country)] + [("gridsquare", c.gridsquare)] + [("name", c.name)] + [("cnty", c.cnty)] + [("state", c.state)] + [("cont", c.cont)] + [("qth", c.qth)] == ContactFields(c)
  {
  }

  /** The hand-written concatenation is exactly the ADI record of the contact's fields. */
  lemma CladifIsRecord(c: Contact)
    ensures Cladif(c) == Record(ContactFields(c))
  {
    FixedTagSpelling();
    LookupTagSpelling();
    var w := "<call:" + NatToDecimal(|c.call|) + ">" + c.call;
    var p := [("call", c.call)];
    assert w == Specifiers(p) by {
      WrittenField([], "call", c.call, "<call:");
      assert [] + p == p;
      assert Specifiers([]) + "<call:" == "<call:";
    }
    assert w + "<band:" + NatToDecimal(|c.band|) + ">" + c.band == Specifiers(p + [("band", c.band)]) by {
      WrittenField(p, "band", c.band, "<band:");
    }
    w, p := w + "<band:" + NatToDecimal(|c.band|) + ">" + c.band, p + [("band", c.band)];
    assert w + "<mode:" + NatToDecimal(|c.mode|) + ">" + c.mode == Specifiers(p + [("mode", c.mode)]) by {
      WrittenField(p, "mode", c.mode, "<mode:");
    }
    w, p := w + "<mode:" + NatToDecimal(|c.mode|) + ">" + c.mode, p + [("mode", c.mode)];
    assert w + "<freq:" + NatToDecimal(|c.freq|) + ">" + c.freq == Specifiers(p + [("freq", c.freq)]) by {
      WrittenField(p, "freq", c.freq, "<freq:");
    }
    w, p := w + "<freq:" + NatToDecimal(|c.freq|) + ">" + c.freq, p + [("freq", c.freq)];
    assert w + "<qso_date:" + NatToDecimal(|c.qsoDate|) + ">" + c.qsoDate == Specifiers(p + [("qso_date", c.qsoDate)]) by {
      WrittenField(p, "qso_date", c.qsoDate, "<qso_date:");
    }
    w, p := w + "<qso_date:" + NatToDecimal(|c.qsoDate|) + ">" + c.qsoDate, p + [("qso_date", c.qsoDate)];
    assert w + "<time_on:" + NatToDecimal(|c.timeOn|) + ">" + c.timeOn == Specifiers(p + [("time_on", c.timeOn)]) by {
      WrittenField(p, "time_on", c.timeOn, "<time_on:");
    }
    w, p := w + "<time_on:" + NatToDecimal(|c.timeOn|) + ">" + c.timeOn, p + [("time_on", c.timeOn)];
    assert w + "<time_off:" + NatToDecimal(|c.timeOff|) + ">" + c.timeOff == Specifiers(p + [("time_off", c.timeOff)]) by {
      WrittenField(p, "time_off", c.timeOff, "<time_off:");
    }
    w, p := w + "<time_off:" + NatToDecimal(|c.timeOff|) + ">" + c.timeOff, p + [("time_off", c.timeOff)];
    assert w + "<rst_rcvd:" + NatToDecimal(|c.rstRcvd|) + ">" + c.rstRcvd == Specifiers(p + [("rst_rcvd", c.rstRcvd)]) by {
      WrittenField(p, "rst_rcvd", c.rstRcvd, "<rst_rcvd:");
    }
    w, p := w + "<rst_rcvd:" + NatToDecimal(|c.rstRcvd|) + ">" + c.rstRcvd, p + [("rst_rcvd", c.rstRcvd)];
    assert w + "<qsl_rcvd:" + NatToDecimal(|c.qslRcvd|) + ">" + c.qslRcvd == Specifiers(p + [("qsl_rcvd", c.qslRcvd)]) by {
      WrittenField(p, "qsl_rcvd", c.qslRcvd, "<qsl_rcvd:");
    }
    w, p := w + "<qsl_rcvd:" + NatToDecimal(|c.qslRcvd|) + ">" + c.qslRcvd, p + [("qsl_rcvd", c.qslRcvd)];
    assert w + "<qsl_sent:" + NatToDecimal(|c.qslSent|) + ">" + c.qslSent == Specifiers(p + [("qsl_sent", c.qslSent)]) by {
      WrittenField(p, "qsl_sent", c.qslSent, "<qsl_sent:");
    }
    w, p := w + "<qsl_sent:" + NatToDecimal(|c.qslSent|) + ">" + c.qslSent, p + [("qsl_sent", c.qslSent)];
    assert w + "<country:" + NatToDecimal(|c.country|) + ">" + c.country == Specifiers(p + [("country", c.country)]) by {
      WrittenField(p, "country", c.country, "<country:");
    }
    w, p := w + "<country:" + NatToDecimal(|c.country|) + ">" + c.country, p + [("country", c.country)];
    assert w + "<gridsquare:" + NatToDecimal(|c.gridsquare|) + ">" + c.gridsquare == Specifiers(p + [("gridsquare", c.gridsquare)]) by {
      WrittenField(p, "gridsquare", c.gridsquare, "<gridsquare:");
    }
    w, p := w + "<gridsquare:" + NatToDecimal(|c.gridsquare|) + ">" + c.gridsquare, p + [("gridsquare", c.gridsquare)];
    assert w + "<name:" + NatToDecimal(|c.name|) + ">" + c.name == Specifiers(p + [("name", c.name)]) by {
      WrittenField(p, "name", c.name, "<name:");
    }
    w, p := w + "<name:" + NatToDecimal(|c.name|) + ">" + c.name, p + [("name", c.name)];
    assert w + "<cnty:" + NatToDecimal(|c.cnty|) + ">" + c.cnty == Specifiers(p + [("cnty", c.cnty)]) by {
      WrittenField(p, "cnty", c.cnty, "<cnty:");
    }
    w, p := w + "<cnty:" + NatToDecimal(|c.cnty|) + ">" + c.cnty, p + [("cnty", c.cnty)];
    assert w + "<state:" + NatToDecimal(|c.state|) + ">" + c.state == Specifiers(p + [("state", c.state)]) by {
      WrittenField(p, "state", c.state, "<state:");
    }
    w, p := w + "<state:" + NatToDecimal(|c.state|) + ">" + c.state, p + [("state", c.state)];
    assert w + "<cont:" + NatToDecimal(|c.cont|) + ">" + c.cont == Specifiers(p + [("cont", c.cont)]) by {
      WrittenField(p, "cont", c.cont, "<cont:");
    }
    w, p := w + "<cont:" + NatToDecimal(|c.cont|) + ">" + c.cont, p + [("cont", c.cont)];
    assert w + "<qth:" + NatToDecimal(|c.qth|) + ">" + c.qth == Specifiers(p + [("qth", c.qth)]) by {
      WrittenField(p, "qth", c.qth, "<qth:");
    }
    w, p := w + "<qth:" + NatToDecimal(|c.qth|) + ">" + c.qth, p + [("qth", c.qth)];
    FieldsAppended(c);
  }

  /**
   * Decoding the record gives back every field of the contact, each
   * with its own value, in emission order.
   */
  lemma CladifRoundTrip(c: Contact)
    ensures DecodeRecord(Cladif(c)) == Some(ContactFields(c))
  {
    CladifIsRecord(c);
    FieldNamesPlain();
    RecordRoundTrip(ContactFields(c));
  }

  /** `rst_sent` is not among the emitted names. */
  lemma RstSentNotAName()
    ensures RstSentName !in FieldNames
  {
  }

  /** `rst_sent` is bound but no field of the decoded record carries that name. */
  lemma RstSentNotEmitted(c: Contact)
    ensures DecodeRecord(Cladif(c)).Some?
    ensures forall i :: 0 <= i < |DecodeRecord(Cladif(c)).value| ==> DecodeRecord(Cladif(c)).value[i].0 != RstSentName
  {
    CladifRoundTrip(c);
    RstSentNotAName();
    var fs := ContactFields(c);
    forall i | 0 <= i < |fs| ensures fs[i].0 != RstSentName {
      assert fs[i].0 == FieldNames[i];
    }
  }

  /**
   * End to end: when every lookup key is present, the upload map has type
   * `adif`, and its record decodes to the fixed details followed by the
   * looked-up fields, with `qth` as `adr_city, us_state`.
   */
  lemma ScriptOutput(callsign: string, results: map<string, string>)
    requires "country" in results && "grid" in results && "nick" in results && "us_county" in results
    requires "us_state" in results && "continent" in results && "adr_city" in results
    ensures var r := Script(callsign, results);
      && r.Ok? && r.value["type"] == "adif"
      && DecodeRecord(r.value["string"]) == Some([
           ("call", callsign), ("band", "40M"), ("mode", "FT8"), ("freq", "14.074000"),
           ("qso_date", "20220415"), ("time_on", "170000"), ("time_off", "170100"),
           ("rst_rcvd", "-10"), ("qsl_rcvd", "N"), ("qsl_sent", "N"),
           ("country", results["country"]), ("gridsquare", results["grid"]),
           ("name", results["nick"]), ("cnty", results["us_county"]),
           ("state", results["us_state"]), ("cont", results["continent"]),
           ("qth", results["adr_city"] + ", " + results["us_state"])])
  {
    assert forall k :: 0 <= k < |LookupOrder| ==> LookupOrder[k] in results;
    var c := ContactFromResults(callsign, results).value;
    CladifRoundTrip(c);
  }
}

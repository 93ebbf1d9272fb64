// The failure modes the server reports: `FailureModeEnum`, a name for each integer code.
module FailureModes {
  import opened Common

  /**
   * `FailureModeEnum(code).name`, or None where the enum has no member with that value.
   * The members are grouped by hundreds (strain, stress, shear crimping, wrinkling, ...).
   */
  function FailureModeName(code: int): Option<string>
  {
    if code < 200 then
      if code == 101 then Some("emax")
      else if code == 102 then Some("evm")
      else if code == 110 then Some("e1")
      else if code == 111 then Some("e1t")
      else if code == 112 then Some("e1c")
      else if code == 120 then Some("e2")
      else if code == 121 then Some("e2t")
      else if code == 122 then Some("e2c")
      else if code == 130 then Some("e3")
      else if code == 131 then Some("e3t")
      else if code == 132 then Some("e3c")
      else if code == 140 then Some("e12")
      else if code == 150 then Some("e13")
      else if code == 160 then Some("e23")
      else None
    else if code < 300 then
      if code == 201 then Some("smax")
      else if code == 202 then Some("svm")
      else if code == 210 then Some("s1")
      else if code == 211 then Some("s1t")
      else if code == 212 then Some("s1c")
      else if code == 220 then Some("s2")
      else if code == 221 then Some("s2t")
      else if code == 222 then Some("s2c")
      else if code == 230 then Some("s3")
      else if code == 231 then Some("s3t")
      else if code == 232 then Some("s3c")
      else if code == 240 then Some("s12")
      else if code == 250 then Some("s13")
      else if code == 260 then Some("s23")
      else None
    else if code < 400 then
      if code == 310 then Some("cf")
      else if code == 320 then Some("w")
      else if code == 321 then Some("wb")
      else if code == 322 then Some("wt")
      else if code == 330 then Some("sc")
      else None
    else if code < 500 then
      if code == 400 then Some("tw")
      else None
    else if code < 600 then
      if code == 500 then Some("th")
      else if code == 501 then Some("h")
      else None
    else if code < 700 then
      if code == 601 then Some("hf")
      else if code == 602 then Some("hm")
      else if code == 603 then Some("hd")
      else None
    else if code < 800 then
      if code == 700 then Some("ho")
      else None
    else if code < 900 then
      if code == 800 then Some("p")
      else if code == 801 then Some("pf")
      else if code == 802 then Some("pmA")
      else if code == 803 then Some("pmB")
      else if code == 804 then Some("pmC")
      else if code == 805 then Some("pd")
      else None
    else if code < 1000 then
      if code == 900 then Some("l")
      else if code == 901 then Some("lft3")
      else if code == 902 then Some("lfc4")
      else if code == 903 then Some("lfc6")
      else if code == 904 then Some("lmt1")
      else if code == 905 then Some("lmc2")
      else if code == 906 then Some("lmc5")
      else None
    else if code < 1100 then
      if code == 1000 then Some("c")
      else if code == 1001 then Some("cft")
      else if code == 1002 then Some("cfc")
      else if code == 1003 then Some("cmA")
      else if code == 1004 then Some("cmB")
      else if code == 1005 then Some("cmC")
      else None
    else if code < 1200 then
      if code == 1101 then Some("vMe")
      else if code == 1102 then Some("vMs")
      else None
    else if code < 1300 then
      if code == 1201 then Some("as")
      else if code == 1202 then Some("ap")
      else if code == 1203 then Some("af")
      else None
    else if code < 10000 then
      if code == 9998 then Some("ns")
      else if code == 9999 then Some("na")
      else None
    else None
  }

  /** `FailureModeEnum[name].value`, or None where the enum has no member with that name. */
  function FailureModeCode(name: string): Option<int>
  {
    if |name| == 1 then
      if name[0] == 'c' then
        if name == "c" then Some(1000)
        else None
      else if name[0] == 'h' then
        if name == "h" then Some(501)
        else None
      else if name[0] == 'l' then
        if name == "l" then Some(900)
        else None
      else if name[0] == 'p' then
        if name == "p" then Some(800)
        else None
      else if name[0] == 'w' then
        if name == "w" then Some(320)
        else None
      else None
    else if |name| == 2 then
      if name[0] == 'a' then
        if name == "as" then Some(1201)
        else if name == "ap" then Some(1202)
        else if name == "af" then Some(1203)
        else None
      else if name[0] == 'c' then
        if name == "cf" then Some(310)
        else None
      else if name[0] == 'e' then
        if name == "e1" then Some(110)
        else if name == "e2" then Some(120)
        else if name == "e3" then Some(130)
        else None
      else if name[0] == 'h' then
        if name == "hf" then Some(601)
        else if name == "hm" then Some(602)
        else if name == "hd" then Some(603)
        else if name == "ho" then Some(700)
        else None
      else if name[0] == 'n' then
        if name == "ns" then Some(9998)
        else if name == "na" then Some(9999)
        else None
      else if name[0] == 'p' then
        if name == "pf" then Some(801)
        else if name == "pd" then Some(805)
        else None
      else if name[0] == 's' then
        if name == "s1" then Some(210)
        else if name == "s2" then Some(220)
        else if name == "s3" then Some(230)
        else if name == "sc" then Some(330)
        else None
      else if name[0] == 't' then
        if name == "tw" then Some(400)
        else if name == "th" then Some(500)
        else None
      else if name[0] == 'w' then
        if name == "wb" then Some(321)
        else if name == "wt" then Some(322)
        else None
      else None
    else if |name| == 3 then
      if name[0] == 'c' then
        if name == "cft" then Some(1001)
        else if name == "cfc" then Some(1002)
        else if name == "cmA" then Some(1003)
        else if name == "cmB" then Some(1004)
        else if name == "cmC" then Some(1005)
        else None
      else if name[0] == 'e' then
        if name == "evm" then Some(102)
        else if name == "e1t" then Some(111)
        else if name == "e1c" then Some(112)
        else if name == "e2t" then Some(121)
        else if name == "e2c" then Some(122)
        else if name == "e3t" then Some(131)
        else if name == "e3c" then Some(132)
        else if name == "e12" then Some(140)
        else if name == "e13" then Some(150)
        else if name == "e23" then Some(160)
        else None
      else if name[0] == 'p' then
        if name == "pmA" then Some(802)
        else if name == "pmB" then Some(803)
        else if name == "pmC" then Some(804)
        else None
      else if name[0] == 's' then
        if name == "svm" then Some(202)
        else if name == "s1t" then Some(211)
        else if name == "s1c" then Some(212)
        else if name == "s2t" then Some(221)
        else if name == "s2c" then Some(222)
        else if name == "s3t" then Some(231)
        else if name == "s3c" then Some(232)
        else if name == "s12" then Some(240)
        else if name == "s13" then Some(250)
        else if name == "s23" then Some(260)
        else None
      else if name[0] == 'v' then
        if name == "vMe" then Some(1101)
        else if name == "vMs" then Some(1102)
        else None
      else None
    else if |name| == 4 then
      if name[0] == 'e' then
        if name == "emax" then Some(101)
        else None
      else if name[0] == 'l' then
        if name == "lft3" then Some(901)
        else if name == "lfc4" then Some(902)
        else if name == "lfc6" then Some(903)
        else if name == "lmt1" then Some(904)
        else if name == "lmc2" then Some(905)
        else if name == "lmc5" then Some(906)
        else None
      else if name[0] == 's' then
        if name == "smax" then Some(201)
        else None
      else None
    else None
  }

  /** Looking a code's name up by name gives the code back. */
  lemma FailureModeRoundTrip(code: int)
    ensures FailureModeName(code).Some? ==> FailureModeCode(FailureModeName(code).value) == Some(code)
  {
    if code < 200 {
      CodesRoundTrip1(code);
    } else if code < 300 {
      CodesRoundTrip2(code);
    } else if code < 400 {
      CodesRoundTrip3(code);
    } else if code < 500 {
      CodesRoundTrip4(code);
    } else if code < 600 {
      CodesRoundTrip5(code);
    } else if code < 700 {
      CodesRoundTrip6(code);
    } else if code < 800 {
      CodesRoundTrip7(code);
    } else if code < 900 {
      CodesRoundTrip8(code);
    } else if code < 1000 {
      CodesRoundTrip9(code);
    } else if code < 1100 {
      CodesRoundTrip10(code);
    } else if code < 1200 {
      CodesRoundTrip11(code);
    } else if code < 1300 {
      CodesRoundTrip12(code);
    } else if code < 10000 {
      CodesRoundTrip99(code);
    }
  }

  lemma CodesRoundTrip1(code: int)
    requires code < 200
    ensures FailureModeName(code).Some? ==> FailureModeCode(FailureModeName(code).value) == Some(code)
  {
    if code == 101 {
      assert FailureModeCode("emax") == Some(101);
    } else if code == 102 {
      assert FailureModeCode("evm") == Some(102);
    } else if code == 110 {
      assert FailureModeCode("e1") == Some(110);
    } else if code == 111 {
      assert FailureModeCode("e1t") == Some(111);
    } else if code == 112 {
      assert FailureModeCode("e1c") == Some(112);
    } else if code == 120 {
      assert FailureModeCode("e2") == Some(120);
    } else if code == 121 {
      assert FailureModeCode("e2t") == Some(121);
    } else if code == 122 {
      assert FailureModeCode("e2c") == Some(122);
    } else if code == 130 {
      assert FailureModeCode("e3") == Some(130);
    } else if code == 131 {
      assert FailureModeCode("e3t") == Some(131);
    } else if code == 132 {
      assert FailureModeCode("e3c") == Some(132);
    } else if code == 140 {
      assert FailureModeCode("e12") == Some(140);
    } else if code == 150 {
      assert FailureModeCode("e13") == Some(150);
    } else if code == 160 {
      assert FailureModeCode("e23") == Some(160);
    }
  }

  lemma CodesRoundTrip2(code: int)
    requires 200 <= code < 300
    ensures FailureModeName(code).Some? ==> FailureModeCode(FailureModeName(code).value) == Some(code)
  {
    if code == 201 {
      assert FailureModeCode("smax") == Some(201);
    } else if code == 202 {
      assert FailureModeCode("svm") == Some(202);
    } else if code == 210 {
      assert FailureModeCode("s1") == Some(210);
    } else if code == 211 {
      assert FailureModeCode("s1t") == Some(211);
    } else if code == 212 {
      assert FailureModeCode("s1c") == Some(212);
    } else if code == 220 {
      assert FailureModeCode("s2") == Some(220);
    } else if code == 221 {
      assert FailureModeCode("s2t") == Some(221);
    } else if code == 222 {
      assert FailureModeCode("s2c") == Some(222);
    } else if code == 230 {
      assert FailureModeCode("s3") == Some(230);
    } else if code == 231 {
      assert FailureModeCode("s3t") == Some(231);
    } else if code == 232 {
      assert FailureModeCode("s3c") == Some(232);
    } else if code == 240 {
      assert FailureModeCode("s12") == Some(240);
    } else if code == 250 {
      assert FailureModeCode("s13") == Some(250);
    } else if code == 260 {
      assert FailureModeCode("s23") == Some(260);
    }
  }

  lemma CodesRoundTrip3(code: int)
    requires 300 <= code < 400
    ensures FailureModeName(code).Some? ==> FailureModeCode(FailureModeName(code).value) == Some(code)
  {
    if code == 310 {
      assert FailureModeCode("cf") == Some(310);
    } else if code == 320 {
      assert FailureModeCode("w") == Some(320);
    } else if code == 321 {
      assert FailureModeCode("wb") == Some(321);
    } else if code == 322 {
      assert FailureModeCode("wt") == Some(322);
    } else if code == 330 {
      assert FailureModeCode("sc") == Some(330);
    }
  }

  lemma CodesRoundTrip4(code: int)
    requires 400 <= code < 500
    ensures FailureModeName(code).Some? ==> FailureModeCode(FailureModeName(code).value) == Some(code)
  {
    if code == 400 {
      assert FailureModeCode("tw") == Some(400);
    }
  }

  lemma CodesRoundTrip5(code: int)
    requires 500 <= code < 600
    ensures FailureModeName(code).Some? ==> FailureModeCode(FailureModeName(code).value) == Some(code)
  {
    if code == 500 {
      assert FailureModeCode("th") == Some(500);
    } else if code == 501 {
      assert FailureModeCode("h") == Some(501);
    }
  }

  lemma CodesRoundTrip6(code: int)
    requires 600 <= code < 700
    ensures FailureModeName(code).Some? ==> FailureModeCode(FailureModeName(code).value) == Some(code)
  {
    if code == 601 {
      assert FailureModeCode("hf") == Some(601);
    } else if code == 602 {
      assert FailureModeCode("hm") == Some(602);
    } else if code == 603 {
      assert FailureModeCode("hd") == Some(603);
    }
  }

  lemma CodesRoundTrip7(code: int)
    requires 700 <= code < 800
    ensures FailureModeName(code).Some? ==> FailureModeCode(FailureModeName(code).value) == Some(code)
  {
    if code == 700 {
      assert FailureModeCode("ho") == Some(700);
    }
  }

  lemma CodesRoundTrip8(code: int)
    requires 800 <= code < 900
    ensures FailureModeName(code).Some? ==> FailureModeCode(FailureModeName(code).value) == Some(code)
  {
    if code == 800 {
      assert FailureModeCode("p") == Some(800);
    } else if code == 801 {
      assert FailureModeCode("pf") == Some(801);
    } else if code == 802 {
      assert FailureModeCode("pmA") == Some(802);
    } else if code == 803 {
      assert FailureModeCode("pmB") == Some(803);
    } else if code == 804 {
      assert FailureModeCode("pmC") == Some(804);
    } else if code == 805 {
      assert FailureModeCode("pd") == Some(805);
    }
  }

  lemma CodesRoundTrip9(code: int)
    requires 900 <= code < 1000
    ensures FailureModeName(code).Some? ==> FailureModeCode(FailureModeName(code).value) == Some(code)
  {
    if code == 900 {
      assert FailureModeCode("l") == Some(900);
    } else if code == 901 {
      assert FailureModeCode("lft3") == Some(901);
    } else if code == 902 {
      assert FailureModeCode("lfc4") == Some(902);
    } else if code == 903 {
      assert FailureModeCode("lfc6") == Some(903);
    } else if code == 904 {
      assert FailureModeCode("lmt1") == Some(904);
    } else if code == 905 {
      assert FailureModeCode("lmc2") == Some(905);
    } else if code == 906 {
      assert FailureModeCode("lmc5") == Some(906);
    }
  }

  lemma CodesRoundTrip10(code: int)
    requires 1000 <= code < 1100
    ensures FailureModeName(code).Some? ==> FailureModeCode(FailureModeName(code).value) == Some(code)
  {
    if code == 1000 {
      assert FailureModeCode("c") == Some(1000);
    } else if code == 1001 {
      assert FailureModeCode("cft") == Some(1001);
    } else if code == 1002 {
      assert FailureModeCode("cfc") == Some(1002);
    } else if code == 1003 {
      assert FailureModeCode("cmA") == Some(1003);
    } else if code == 1004 {
      assert FailureModeCode("cmB") == Some(1004);
    } else if code == 1005 {
      assert FailureModeCode("cmC") == Some(1005);
    }
  }

  lemma CodesRoundTrip11(code: int)
    requires 1100 <= code < 1200
    ensures FailureModeName(code).Some? ==> FailureModeCode(FailureModeName(code).value) == Some(code)
  {
    if code == 1101 {
      assert FailureModeCode("vMe") == Some(1101);
    } else if code == 1102 {
      assert FailureModeCode("vMs") == Some(1102);
    }
  }

  lemma CodesRoundTrip12(code: int)
    requires 1200 <= code < 1300
    ensures FailureModeName(code).Some? ==> FailureModeCode(FailureModeName(code).value) == Some(code)
  {
    if code == 1201 {
      assert FailureModeCode("as") == Some(1201);
    } else if code == 1202 {
      assert FailureModeCode("ap") == Some(1202);
    } else if code == 1203 {
      assert FailureModeCode("af") == Some(1203);
    }
  }

  lemma CodesRoundTrip99(code: int)
    requires 1300 <= code < 10000
    ensures FailureModeName(code).Some? ==> FailureModeCode(FailureModeName(code).value) == Some(code)
  {
    if code == 9998 {
      assert FailureModeCode("ns") == Some(9998);
    } else if code == 9999 {
      assert FailureModeCode("na") == Some(9999);
    }
  }

  /** Looking a name's code up by code gives the name back: no two members share a code. */
  lemma FailureModeRoundTripByName(name: string)
    ensures FailureModeCode(name).Some? ==> FailureModeName(FailureModeCode(name).value) == Some(name)
  {
    if |name| == 1 && name[0] == 'c' {
      NamesRoundTrip1c(name);
    } else if |name| == 1 && name[0] == 'h' {
      NamesRoundTrip1h(name);
    } else if |name| == 1 && name[0] == 'l' {
      NamesRoundTrip1l(name);
    } else if |name| == 1 && name[0] == 'p' {
      NamesRoundTrip1p(name);
    } else if |name| == 1 && name[0] == 'w' {
      NamesRoundTrip1w(name);
    } else if |name| == 2 && name[0] == 'a' {
      NamesRoundTrip2a(name);
    } else if |name| == 2 && name[0] == 'c' {
      NamesRoundTrip2c(name);
    } else if |name| == 2 && name[0] == 'e' {
      NamesRoundTrip2e(name);
    } else if |name| == 2 && name[0] == 'h' {
      NamesRoundTrip2h(name);
    } else if |name| == 2 && name[0] == 'n' {
      NamesRoundTrip2n(name);
    } else if |name| == 2 && name[0] == 'p' {
      NamesRoundTrip2p(name);
    } else if |name| == 2 && name[0] == 's' {
      NamesRoundTrip2s(name);
    } else if |name| == 2 && name[0] == 't' {
      NamesRoundTrip2t(name);
    } else if |name| == 2 && name[0] == 'w' {
      NamesRoundTrip2w(name);
    } else if |name| == 3 && name[0] == 'c' {
      NamesRoundTrip3c(name);
    } else if |name| == 3 && name[0] == 'e' {
      NamesRoundTrip3e(name);
    } else if |name| == 3 && name[0] == 'p' {
      NamesRoundTrip3p(name);
    } else if |name| == 3 && name[0] == 's' {
      NamesRoundTrip3s(name);
    } else if |name| == 3 && name[0] == 'v' {
      NamesRoundTrip3v(name);
    } else if |name| == 4 && name[0] == 'e' {
      NamesRoundTrip4e(name);
    } else if |name| == 4 && name[0] == 'l' {
      NamesRoundTrip4l(name);
    } else if |name| == 4 && name[0] == 's' {
      NamesRoundTrip4s(name);
    }
  }

  lemma NamesRoundTrip1c(name: string)
    requires |name| == 1 && name[0] == 'c'
    ensures FailureModeCode(name).Some? ==> FailureModeName(FailureModeCode(name).value) == Some(name)
  {
    if name == "c" {
      assert FailureModeName(1000) == Some("c");
    }
  }

  lemma NamesRoundTrip1h(name: string)
    requires |name| == 1 && name[0] == 'h'
    ensures FailureModeCode(name).Some? ==> FailureModeName(FailureModeCode(name).value) == Some(name)
  {
    if name == "h" {
      assert FailureModeName(501) == Some("h");
    }
  }

  lemma NamesRoundTrip1l(name: string)
    requires |name| == 1 && name[0] == 'l'
    ensures FailureModeCode(name).Some? ==> FailureModeName(FailureModeCode(name).value) == Some(name)
  {
    if name == "l" {
      assert FailureModeName(900) == Some("l");
    }
  }

  lemma NamesRoundTrip1p(name: string)
    requires |name| == 1 && name[0] == 'p'
    ensures FailureModeCode(name).Some? ==> FailureModeName(FailureModeCode(name).value) == Some(name)
  {
    if name == "p" {
      assert FailureModeName(800) == Some("p");
    }
  }

  lemma NamesRoundTrip1w(name: string)
    requires |name| == 1 && name[0] == 'w'
    ensures FailureModeCode(name).Some? ==> FailureModeName(FailureModeCode(name).value) == Some(name)
  {
    if name == "w" {
      assert FailureModeName(320) == Some("w");
    }
  }

  lemma NamesRoundTrip2a(name: string)
    requires |name| == 2 && name[0] == 'a'
    ensures FailureModeCode(name).Some? ==> FailureModeName(FailureModeCode(name).value) == Some(name)
  {
    if name == "as" {
      assert FailureModeName(1201) == Some("as");
    } else if name == "ap" {
      assert FailureModeName(1202) == Some("ap");
    } else if name == "af" {
      assert FailureModeName(1203) == Some("af");
    }
  }

  lemma NamesRoundTrip2c(name: string)
    requires |name| == 2 && name[0] == 'c'
    ensures FailureModeCode(name).Some? ==> FailureModeName(FailureModeCode(name).value) == Some(name)
  {
    if name == "cf" {
      assert FailureModeName(310) == Some("cf");
    }
  }

  lemma NamesRoundTrip2e(name: string)
    requires |name| == 2 && name[0] == 'e'
    ensures FailureModeCode(name).Some? ==> FailureModeName(FailureModeCode(name).value) == Some(name)
  {
    if name == "e1" {
      assert FailureModeName(110) == Some("e1");
    } else if name == "e2" {
      assert FailureModeName(120) == Some("e2");
    } else if name == "e3" {
      assert FailureModeName(130) == Some("e3");
    }
  }

  lemma NamesRoundTrip2h(name: string)
    requires |name| == 2 && name[0] == 'h'
    ensures FailureModeCode(name).Some? ==> FailureModeName(FailureModeCode(name).value) == Some(name)
  {
    if name == "hf" {
      assert FailureModeName(601) == Some("hf");
    } else if name == "hm" {
      assert FailureModeName(602) == Some("hm");
    } else if name == "hd" {
      assert FailureModeName(603) == Some("hd");
    } else if name == "ho" {
      assert FailureModeName(700) == Some("ho");
    }
  }

  lemma NamesRoundTrip2n(name: string)
    requires |name| == 2 && name[0] == 'n'
    ensures FailureModeCode(name).Some? ==> FailureModeName(FailureModeCode(name).value) == Some(name)
  {
    if name == "ns" {
      assert FailureModeName(9998) == Some("ns");
    } else if name == "na" {
      assert FailureModeName(9999) == Some("na");
    }
  }

  lemma NamesRoundTrip2p(name: string)
    requires |name| == 2 && name[0] == 'p'
    ensures FailureModeCode(name).Some? ==> FailureModeName(FailureModeCode(name).value) == Some(name)
  {
    if name == "pf" {
      assert FailureModeName(801) == Some("pf");
    } else if name == "pd" {
      assert FailureModeName(805) == Some("pd");
    }
  }

  lemma NamesRoundTrip2s(name: string)
    requires |name| == 2 && name[0] == 's'
    ensures FailureModeCode(name).Some? ==> FailureModeName(FailureModeCode(name).value) == Some(name)
  {
    if name == "s1" {
      assert FailureModeName(210) == Some("s1");
    } else if name == "s2" {
      assert FailureModeName(220) == Some("s2");
    } else if name == "s3" {
      assert FailureModeName(230) == Some("s3");
    } else if name == "sc" {
      assert FailureModeName(330) == Some("sc");
    }
  }

  lemma NamesRoundTrip2t(name: string)
    requires |name| == 2 && name[0] == 't'
    ensures FailureModeCode(name).Some? ==> FailureModeName(FailureModeCode(name).value) == Some(name)
  {
    if name == "tw" {
      assert FailureModeName(400) == Some("tw");
    } else if name == "th" {
      assert FailureModeName(500) == Some("th");
    }
  }

  lemma NamesRoundTrip2w(name: string)
    requires |name| == 2 && name[0] == 'w'
    ensures FailureModeCode(name).Some? ==> FailureModeName(FailureModeCode(name).value) == Some(name)
  {
    if name == "wb" {
      assert FailureModeName(321) == Some("wb");
    } else if name == "wt" {
      assert FailureModeName(322) == Some("wt");
    }
  }

  lemma NamesRoundTrip3c(name: string)
    requires |name| == 3 && name[0] == 'c'
    ensures FailureModeCode(name).Some? ==> FailureModeName(FailureModeCode(name).value) == Some(name)
  {
    if name == "cft" {
      assert FailureModeName(1001) == Some("cft");
    } else if name == "cfc" {
      assert FailureModeName(1002) == Some("cfc");
    } else if name == "cmA" {
      assert FailureModeName(1003) == Some("cmA");
    } else if name == "cmB" {
      assert FailureModeName(1004) == Some("cmB");
    } else if name == "cmC" {
      assert FailureModeName(1005) == Some("cmC");
    }
  }

  lemma NamesRoundTrip3e(name: string)
    requires |name| == 3 && name[0] == 'e'
    ensures FailureModeCode(name).Some? ==> FailureModeName(FailureModeCode(name).value) == Some(name)
  {
    if name == "evm" {
      assert FailureModeName(102) == Some("evm");
    } else if name == "e1t" {
      assert FailureModeName(111) == Some("e1t");
    } else if name == "e1c" {
      assert FailureModeName(112) == Some("e1c");
    } else if name == "e2t" {
      assert FailureModeName(121) == Some("e2t");
    } else if name == "e2c" {
      assert FailureModeName(122) == Some("e2c");
    } else if name == "e3t" {
      assert FailureModeName(131) == Some("e3t");
    } else if name == "e3c" {
      assert FailureModeName(132) == Some("e3c");
    } else if name == "e12" {
      assert FailureModeName(140) == Some("e12");
    } else if name == "e13" {
      assert FailureModeName(150) == Some("e13");
    } else if name == "e23" {
      assert FailureModeName(160) == Some("e23");
    }
  }

  lemma NamesRoundTrip3p(name: string)
    requires |name| == 3 && name[0] == 'p'
    ensures FailureModeCode(name).Some? ==> FailureModeName(FailureModeCode(name).value) == Some(name)
  {
    if name == "pmA" {
      assert FailureModeName(802) == Some("pmA");
    } else if name == "pmB" {
      assert FailureModeName(803) == Some("pmB");
    } else if name == "pmC" {
      assert FailureModeName(804) == Some("pmC");
    }
  }

  lemma NamesRoundTrip3s(name: string)
    requires |name| == 3 && name[0] == 's'
    ensures FailureModeCode(name).Some? ==> FailureModeName(FailureModeCode(name).value) == Some(name)
  {
    if name == "svm" {
      assert FailureModeName(202) == Some("svm");
    } else if name == "s1t" {
      assert FailureModeName(211) == Some("s1t");
    } else if name == "s1c" {
      assert FailureModeName(212) == Some("s1c");
    } else if name == "s2t" {
      assert FailureModeName(221) == Some("s2t");
    } else if name == "s2c" {
      assert FailureModeName(222) == Some("s2c");
    } else if name == "s3t" {
      assert FailureModeName(231) == Some("s3t");
    } else if name == "s3c" {
      assert FailureModeName(232) == Some("s3c");
    } else if name == "s12" {
      assert FailureModeName(240) == Some("s12");
    } else if name == "s13" {
      assert FailureModeName(250) == Some("s13");
    } else if name == "s23" {
      assert FailureModeName(260) == Some("s23");
    }
  }

  lemma NamesRoundTrip3v(name: string)
    requires |name| == 3 && name[0] == 'v'
    ensures FailureModeCode(name).Some? ==> FailureModeName(FailureModeCode(name).value) == Some(name)
  {
    if name == "vMe" {
      assert FailureModeName(1101) == Some("vMe");
    } else if name == "vMs" {
      assert FailureModeName(1102) == Some("vMs");
    }
  }

  lemma NamesRoundTrip4e(name: string)
    requires |name| == 4 && name[0] == 'e'
    ensures FailureModeCode(name).Some? ==> FailureModeName(FailureModeCode(name).value) == Some(name)
  {
    if name == "emax" {
      assert FailureModeName(101) == Some("emax");
    }
  }

  lemma NamesRoundTrip4l(name: string)
    requires |name| == 4 && name[0] == 'l'
    ensures FailureModeCode(name).Some? ==> FailureModeName(FailureModeCode(name).value) == Some(name)
  {
    if name == "lft3" {
      assert FailureModeName(901) == Some("lft3");
    } else if name == "lfc4" {
      assert FailureModeName(902) == Some("lfc4");
    } else if name == "lfc6" {
      assert FailureModeName(903) == Some("lfc6");
    } else if name == "lmt1" {
      assert FailureModeName(904) == Some("lmt1");
    } else if name == "lmc2" {
      assert FailureModeName(905) == Some("lmc2");
    } else if name == "lmc5" {
      assert FailureModeName(906) == Some("lmc5");
    }
  }

  lemma NamesRoundTrip4s(name: string)
    requires |name| == 4 && name[0] == 's'
    ensures FailureModeCode(name).Some? ==> FailureModeName(FailureModeCode(name).value) == Some(name)
  {
    if name == "smax" {
      assert FailureModeName(201) == Some("smax");
    }
  }
}

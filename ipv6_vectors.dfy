/**
 * The table of addresses in ValidateIPAddressTest (lines 33-572), each entry
 * the verdict `IsIPv6` gives.  Long addresses are written as concatenations of
 * short pieces, and the proof of each names the scanner states every few
 * characters, from the end of the address backwards.
 */
module IPv6Vectors {
  import opened IPv6

  // ---------------------------------------------------------------------------
  // The table, block by block

  /** Lines 33-54: the loopback and unspecified addresses, full forms and their first compressions. */
  lemma Lines33To54()
    ensures !IsIPv6("")
    ensures IsIPv6("::1")
    ensures IsIPv6("::")
    ensures IsIPv6("0:0:0:0:" + "0:0:0:1")
    ensures IsIPv6("0:0:0:0:" + "0:0:0:0")
    ensures IsIPv6(("2001:DB8" + ":0:0:8:8") + ("00:200C:" + "417A"))
    ensures IsIPv6(("FF01:0:0" + ":0:0:0:0") + ":101")
    ensures IsIPv6(("2001:DB8" + "::8:800:") + ("200C:417" + "A"))
    ensures IsIPv6("FF01::10" + "1")
    ensures !IsIPv6(("2001:DB8" + ":0:0:8:8") + ("00:200C:" + "417A:221"))
    ensures !IsIPv6("FF01::10" + "1::2")
    ensures IsIPv6(("fe80::21" + "7:f2ff:f") + "e07:ed62")
    ensures IsIPv6((("2001:000" + "0:1234:0") + "000:0000") + (":C1C0:AB" + "CD:0876"))
    ensures IsIPv6((("3ffe:0b0" + "0:0000:0") + "000:0001") + (":0000:00" + "00:000a"))
    ensures IsIPv6((("FF02:000" + "0:0000:0") + "000:0000") + (":0000:00" + "00:0001"))
    ensures IsIPv6((("0000:000" + "0:0000:0") + "000:0000") + (":0000:00" + "00:0001"))
    ensures IsIPv6((("0000:000" + "0:0000:0") + "000:0000") + (":0000:00" + "00:0000"))
    ensures !IsIPv6((("02001:00" + "00:1234:") + "0000:000") + ("0:C1C0:A" + "BCD:0876"))
    ensures !IsIPv6((("2001:000" + "0:1234:0") + "000:0000") + ("1:C1C0:A" + "BCD:0876"))
    ensures !IsIPv6((("2001:000" + "0:1234:0") + "000:0000") + ((":C1C0:AB" + "CD:0876 ") + " 0"))
    ensures !IsIPv6((("2001:000" + "0:1234: ") + "0000:000") + ("0:C1C0:A" + "BCD:0876"))
  {
    Line33();
    Line34();
    Line35();
    Line36();
    Line37();
    Line38();
    Line39();
    Line40();
    Line41();
    Line42();
    Line43();
    Line44();
    Line46();
    Line47();
    Line48();
    Line49();
    Line50();
    Line51();
    Line52();
    Line53();
    Line54();
  }

  /** Lines 56-100: full and compressed forms, with malformed variants of them. */
  lemma Lines56To100()
    ensures !IsIPv6((("3ffe:0b0" + "0:0000:0") + "001:0000") + (":0000:00" + "0a"))
    ensures !IsIPv6((("FF02:000" + "0:0000:0") + "000:0000") + ((":0000:00" + "00:0000:") + "0001"))
    ensures !IsIPv6("3ffe:b00" + "::1::a")
    ensures !IsIPv6((("::1111:2" + "222:3333") + ":4444:55") + ("55:6666:" + ":"))
    ensures IsIPv6("2::10")
    ensures IsIPv6("ff02::1")
    ensures IsIPv6("fe80::")
    ensures IsIPv6("2002::")
    ensures IsIPv6("2001:db8" + "::")
    ensures IsIPv6("2001:0db" + "8:1234::")
    ensures IsIPv6("::ffff:0" + ":0")
    ensures IsIPv6("::1")
    ensures IsIPv6("1:2:3:4:" + "5:6:7:8")
    ensures IsIPv6("1:2:3:4:" + "5:6::8")
    ensures IsIPv6("1:2:3:4:" + "5::8")
    ensures IsIPv6("1:2:3:4:" + ":8")
    ensures IsIPv6("1:2:3::8")
    ensures IsIPv6("1:2::8")
    ensures IsIPv6("1::8")
    ensures IsIPv6("1::2:3:4" + ":5:6:7")
    ensures IsIPv6("1::2:3:4" + ":5:6")
    ensures IsIPv6("1::2:3:4" + ":5")
    ensures IsIPv6("1::2:3:4")
    ensures IsIPv6("1::2:3")
    ensures IsIPv6("1::8")
    ensures IsIPv6("::2:3:4:" + "5:6:7:8")
    ensures IsIPv6("::2:3:4:" + "5:6:7")
    ensures IsIPv6("::2:3:4:" + "5:6")
    ensures IsIPv6("::2:3:4:" + "5")
    ensures IsIPv6("::2:3:4")
    ensures IsIPv6("::2:3")
    ensures IsIPv6("::8")
    ensures IsIPv6("1:2:3:4:" + "5:6::")
    ensures IsIPv6("1:2:3:4:" + "5::")
    ensures IsIPv6("1:2:3:4:" + ":")
    ensures IsIPv6("1:2:3::")
    ensures IsIPv6("1:2::")
    ensures IsIPv6("1::")
    ensures IsIPv6("1:2:3:4:" + "5::7:8")
    ensures !IsIPv6("1:2:3::4" + ":5::7:8")
    ensures !IsIPv6("12345::6" + ":7:8")
    ensures IsIPv6("1:2:3:4:" + ":7:8")
    ensures IsIPv6("1:2:3::7" + ":8")
    ensures IsIPv6("1:2::7:8")
    ensures IsIPv6("1::7:8")
  {
    Line56();
    Line57();
    Line58();
    Line59();
    Line60();
    Line61();
    Line62();
    Line63();
    Line64();
    Line65();
    Line66();
    Line67();
    Line68();
    Line69();
    Line70();
    Line71();
    Line72();
    Line73();
    Line74();
    Line75();
    Line76();
    Line77();
    Line78();
    Line79();
    Line80();
    Line81();
    Line82();
    Line83();
    Line84();
    Line85();
    Line86();
    Line87();
    Line88();
    Line89();
    Line90();
    Line91();
    Line92();
    Line93();
    Line94();
    Line95();
    Line96();
    Line97();
    Line98();
    Line99();
    Line100();
  }

  /** Lines 102-190: six groups and an embedded IPv4 address, with octets out of range, with leading zeros or missing. */
  lemma Lines102To190()
    ensures IsIPv6(("1:2:3:4:" + "5:6:1.2.") + "3.4")
    ensures !IsIPv6(("1:2:3:4:" + "5:6:991.") + "2.3.4")
    ensures !IsIPv6(("1:2:3:4:" + "5:6:256.") + "2.3.4")
    ensures IsIPv6(("1:2:3:4:" + "5:6:255.") + ("255.255." + "255"))
    ensures !IsIPv6(("0:2:3:4:" + "5:6:255.") + ("255.275." + "255"))
    ensures IsIPv6(("1:2:3:4:" + "5::1.2.3") + ".4")
    ensures !IsIPv6(("1:2:3:4:" + "5::1.882") + ".3.4")
    ensures IsIPv6("1:2:3:4:" + ":1.2.3.4")
    ensures !IsIPv6(("1:2:3:4:" + ":1.912.3") + ".4")
    ensures IsIPv6("1:2:3::1" + ".2.3.4")
    ensures !IsIPv6("1:2:3::1" + ".2.823.4")
    ensures IsIPv6("1:2::1.2" + ".3.4")
    ensures !IsIPv6("1:2::1.3" + "12.3.4")
    ensures IsIPv6("1::1.2.3" + ".4")
    ensures !IsIPv6("1::411.2" + ".3.4")
    ensures IsIPv6(("1:2:3:4:" + ":5:1.2.3") + ".4")
    ensures !IsIPv6(("1:2:3:4:" + ":5:791.2") + ".3.4")
    ensures IsIPv6("1:2:3::5" + ":1.2.3.4")
    ensures !IsIPv6(("1:2:3::5" + ":681.2.3") + ".4")
    ensures !IsIPv6(("1:2:3::5" + ":1.2.3.1") + "004")
    ensures IsIPv6("1:2::5:1" + ".2.3.4")
    ensures !IsIPv6("1:2::5:1" + ".312.3.4")
    ensures IsIPv6("1::5:1.2" + ".3.4")
    ensures !IsIPv6("1::5:1.5" + "52.3.4")
    ensures IsIPv6("1::5:11." + "22.33.44")
    ensures !IsIPv6(("1::5:11." + "322.33.4") + "4")
    ensures !IsIPv6("1::5:400" + ".2.3.4")
    ensures !IsIPv6("1::5:260" + ".2.3.4")
    ensures !IsIPv6("1::5:256" + ".2.3.4")
    ensures !IsIPv6("1::5:1.2" + "56.3.4")
    ensures !IsIPv6("1::5:1.2" + ".256.4")
    ensures !IsIPv6("1::5:1.2" + ".3.256")
    ensures !IsIPv6("1::5:300" + ".2.3.4")
    ensures !IsIPv6("1::5:1.3" + "00.3.4")
    ensures !IsIPv6("1::5:1.2" + ".300.4")
    ensures !IsIPv6("1::5:1.2" + ".3.300")
    ensures !IsIPv6("1::5:900" + ".2.3.4")
    ensures !IsIPv6("1::5:1.9" + "00.3.4")
    ensures !IsIPv6("1::5:1.2" + ".900.4")
    ensures !IsIPv6("1::5:1.2" + ".3.900")
    ensures !IsIPv6(("1::5:300" + ".300.300") + ".300")
    ensures !IsIPv6(("1::5:300" + "0.30.30.") + "30")
    ensures !IsIPv6("1::400.2" + ".3.4")
    ensures !IsIPv6("1::260.2" + ".3.4")
    ensures !IsIPv6("1::256.2" + ".3.4")
    ensures !IsIPv6("1::1.256" + ".3.4")
    ensures !IsIPv6("1::1.2.2" + "56.4")
    ensures !IsIPv6("1::1.2.3" + ".256")
    ensures !IsIPv6("1::300.2" + ".3.4")
    ensures !IsIPv6("1::1.300" + ".3.4")
    ensures !IsIPv6("1::1.2.3" + "00.4")
    ensures !IsIPv6("1::1.2.3" + ".300")
    ensures !IsIPv6("1::900.2" + ".3.4")
    ensures !IsIPv6("1::1.900" + ".3.4")
    ensures !IsIPv6("1::1.2.9" + "00.4")
    ensures !IsIPv6("1::1.2.3" + ".900")
    ensures !IsIPv6(("1::300.3" + "00.300.3") + "00")
    ensures !IsIPv6("1::3000." + "30.30.30")
    ensures !IsIPv6("::400.2." + "3.4")
    ensures !IsIPv6("::260.2." + "3.4")
    ensures !IsIPv6("::256.2." + "3.4")
    ensures !IsIPv6("::1.256." + "3.4")
    ensures !IsIPv6("::1.2.25" + "6.4")
    ensures !IsIPv6("::1.2.3." + "256")
    ensures !IsIPv6("::300.2." + "3.4")
    ensures !IsIPv6("::1.300." + "3.4")
    ensures !IsIPv6("::1.2.30" + "0.4")
    ensures !IsIPv6("::1.2.3." + "300")
    ensures !IsIPv6("::900.2." + "3.4")
    ensures !IsIPv6("::1.900." + "3.4")
    ensures !IsIPv6("::1.2.90" + "0.4")
    ensures !IsIPv6("::1.2.3." + "900")
    ensures !IsIPv6(("::300.30" + "0.300.30") + "0")
    ensures !IsIPv6("::3000.3" + "0.30.30")
    ensures IsIPv6(("fe80::21" + "7:f2ff:2") + ("54.7.237" + ".98"))
    ensures IsIPv6(("::ffff:1" + "92.168.1") + ".26")
    ensures !IsIPv6(("2001:1:1" + ":1:1:1:2") + ("55Z255X2" + "55Y255"))
    ensures !IsIPv6(("::ffff:1" + "92x168.1") + ".26")
    ensures IsIPv6(("::ffff:1" + "92.168.1") + ".1")
    ensures IsIPv6(("0:0:0:0:" + "0:0:13.1") + ".68.3")
    ensures IsIPv6(("0:0:0:0:" + "0:FFFF:1") + ("29.144.5" + "2.38"))
    ensures IsIPv6("::13.1.6" + "8.3")
    ensures IsIPv6(("::FFFF:1" + "29.144.5") + "2.38")
    ensures IsIPv6((("fe80:0:0" + ":0:204:6") + "1ff:254.") + ("157.241." + "86"))
    ensures IsIPv6(("fe80::20" + "4:61ff:2") + ("54.157.2" + "41.86"))
    ensures IsIPv6(("::ffff:1" + "2.34.56.") + "78")
    ensures !IsIPv6("::ffff:2" + ".3.4")
    ensures !IsIPv6("::ffff:2" + "57.1.2.3")
    ensures !IsIPv6("1.2.3.4")
  {
    Line102();
    Line103();
    Line104();
    Line105();
    Line106();
    Line107();
    Line108();
    Line109();
    Line110();
    Line111();
    Line112();
    Line113();
    Line114();
    Line115();
    Line116();
    Line117();
    Line118();
    Line119();
    Line120();
    Line121();
    Line122();
    Line123();
    Line124();
    Line125();
    Line126();
    Line127();
    Line128();
    Line129();
    Line130();
    Line131();
    Line132();
    Line133();
    Line134();
    Line135();
    Line136();
    Line137();
    Line138();
    Line139();
    Line140();
    Line141();
    Line142();
    Line143();
    Line144();
    Line145();
    Line146();
    Line147();
    Line148();
    Line149();
    Line150();
    Line151();
    Line152();
    Line153();
    Line154();
    Line155();
    Line156();
    Line157();
    Line158();
    Line159();
    Line160();
    Line161();
    Line162();
    Line163();
    Line164();
    Line165();
    Line166();
    Line167();
    Line168();
    Line169();
    Line170();
    Line171();
    Line172();
    Line173();
    Line174();
    Line175();
    Line176();
    Line177();
    Line178();
    Line179();
    Line180();
    Line181();
    Line182();
    Line183();
    Line184();
    Line185();
    Line186();
    Line187();
    Line188();
    Line189();
    Line190();
  }

  /** Lines 192-204: an IPv4 address before the groups, leading zeros in octets and non-hex groups with an IPv4 tail. */
  lemma Lines192To204()
    ensures !IsIPv6((("1.2.3.4:" + "1111:222") + "2:3333:4") + ("444::555" + "5"))
    ensures !IsIPv6(("1.2.3.4:" + "1111:222") + ("2:3333::" + "5555"))
    ensures !IsIPv6(("1.2.3.4:" + "1111:222") + "2::5555")
    ensures !IsIPv6(("1.2.3.4:" + "1111::55") + "55")
    ensures !IsIPv6("1.2.3.4:" + ":5555")
    ensures !IsIPv6("1.2.3.4:" + ":")
    ensures !IsIPv6((("fe80:000" + "0:0000:0") + "000:0204") + ((":61ff:25" + "4.157.24") + "1.086"))
    ensures IsIPv6(("::ffff:1" + "92.0.2.1") + "28")
    ensures !IsIPv6((("XXXX:XXX" + "X:XXXX:X") + "XXX:XXXX") + (":XXXX:1." + "2.3.4"))
    ensures !IsIPv6((("1111:222" + "2:3333:4") + "444:5555") + ((":6666:00" + ".00.00.0") + "0"))
    ensures !IsIPv6((("1111:222" + "2:3333:4") + "444:5555") + ((":6666:00" + "0.000.00") + "0.000"))
    ensures !IsIPv6((("1111:222" + "2:3333:4") + "444:5555") + ((":6666:25" + "6.256.25") + "6.256"))
  {
    Line192();
    Line193();
    Line194();
    Line195();
    Line196();
    Line197();
    Line199();
    Line200();
    Line201();
    Line202();
    Line203();
    Line204();
  }

  /** Lines 206-213: a link-local address in its text forms. */
  lemma Lines206To213()
    ensures IsIPv6((("fe80:000" + "0:0000:0") + "000:0204") + (":61ff:fe" + "9d:f156"))
    ensures IsIPv6(("fe80:0:0" + ":0:204:6") + ("1ff:fe9d" + ":f156"))
    ensures IsIPv6(("fe80::20" + "4:61ff:f") + "e9d:f156")
    ensures IsIPv6("::1")
    ensures IsIPv6("fe80::")
    ensures IsIPv6("fe80::1")
    ensures !IsIPv6(":")
    ensures IsIPv6("::ffff:c" + "000:280")
  {
    Line206();
    Line207();
    Line208();
    Line209();
    Line210();
    Line211();
    Line212();
    Line213();
  }

  /** Lines 215-229: a single colon at either end next to "::". */
  lemma Lines215To229()
    ensures !IsIPv6(("1111:222" + "2:3333:4") + ("444::555" + "5:"))
    ensures !IsIPv6(("1111:222" + "2:3333::") + "5555:")
    ensures !IsIPv6("1111:222" + "2::5555:")
    ensures !IsIPv6("1111::55" + "55:")
    ensures !IsIPv6("::5555:")
    ensures !IsIPv6(":::")
    ensures !IsIPv6("1111:")
    ensures !IsIPv6(":")
    ensures !IsIPv6((":1111:22" + "22:3333:") + ("4444::55" + "55"))
    ensures !IsIPv6((":1111:22" + "22:3333:") + ":5555")
    ensures !IsIPv6(":1111:22" + "22::5555")
    ensures !IsIPv6(":1111::5" + "555")
    ensures !IsIPv6(":::5555")
    ensures !IsIPv6(":::")
  {
    Line215();
    Line216();
    Line217();
    Line218();
    Line219();
    Line220();
    Line221();
    Line222();
    Line224();
    Line225();
    Line226();
    Line227();
    Line228();
    Line229();
  }

  /** Lines 231-246: a documentation address in its text forms. */
  lemma Lines231To246()
    ensures IsIPv6((("2001:0db" + "8:85a3:0") + "000:0000") + (":8a2e:03" + "70:7334"))
    ensures IsIPv6(("2001:db8" + ":85a3:0:") + ("0:8a2e:3" + "70:7334"))
    ensures IsIPv6(("2001:db8" + ":85a3::8") + ("a2e:370:" + "7334"))
    ensures IsIPv6((("2001:0db" + "8:0000:0") + "000:0000") + (":0000:14" + "28:57ab"))
    ensures IsIPv6((("2001:0db" + "8:0000:0") + "000:0000") + ("::1428:5" + "7ab"))
    ensures IsIPv6(("2001:0db" + "8:0:0:0:") + ("0:1428:5" + "7ab"))
    ensures IsIPv6(("2001:0db" + "8:0:0::1") + "428:57ab")
    ensures IsIPv6(("2001:0db" + "8::1428:") + "57ab")
    ensures IsIPv6(("2001:db8" + "::1428:5") + "7ab")
    ensures IsIPv6((("0000:000" + "0:0000:0") + "000:0000") + (":0000:00" + "00:0001"))
    ensures IsIPv6("::1")
    ensures IsIPv6("::ffff:0" + "c22:384e")
    ensures IsIPv6((("2001:0db" + "8:1234:0") + "000:0000") + (":0000:00" + "00:0000"))
    ensures IsIPv6((("2001:0db" + "8:1234:f") + "fff:ffff") + (":ffff:ff" + "ff:ffff"))
    ensures IsIPv6("2001:db8" + ":a::123")
    ensures IsIPv6("fe80::")
  {
    Line231();
    Line232();
    Line233();
    Line234();
    Line235();
    Line236();
    Line237();
    Line238();
    Line239();
    Line240();
    Line241();
    Line242();
    Line243();
    Line244();
    Line245();
    Line246();
  }

  /** Lines 248-256: strings that are not addresses at all, and two "::". */
  lemma Lines248To256()
    ensures !IsIPv6("123")
    ensures !IsIPv6("ldkfj")
    ensures !IsIPv6("2001::FF" + "D3::57ab")
    ensures !IsIPv6(("2001:db8" + ":85a3::8") + ("a2e:3702" + "3:7334"))
    ensures !IsIPv6(("2001:db8" + ":85a3::8") + ("a2e:370k" + ":7334"))
    ensures !IsIPv6(("1:2:3:4:" + "5:6:7:8:") + "9")
    ensures !IsIPv6("1::2::3")
    ensures !IsIPv6("1:::3:4:" + "5")
    ensures !IsIPv6(("1:2:3::4" + ":5:6:7:8") + ":9")
  {
    Line248();
    Line249();
    Line250();
    Line251();
    Line252();
    Line253();
    Line254();
    Line255();
    Line256();
  }

  /** Lines 258-330: "::" standing for one or more zero pieces in every position. */
  lemma Lines258To330()
    ensures IsIPv6((("1111:222" + "2:3333:4") + "444:5555") + (":6666:77" + "77:8888"))
    ensures IsIPv6((("1111:222" + "2:3333:4") + "444:5555") + (":6666:77" + "77::"))
    ensures IsIPv6(("1111:222" + "2:3333:4") + ("444:5555" + ":6666::"))
    ensures IsIPv6(("1111:222" + "2:3333:4") + ("444:5555" + "::"))
    ensures IsIPv6(("1111:222" + "2:3333:4") + "444::")
    ensures IsIPv6("1111:222" + "2:3333::")
    ensures IsIPv6("1111:222" + "2::")
    ensures IsIPv6("1111::")
    ensures IsIPv6((("1111:222" + "2:3333:4") + "444:5555") + (":6666::8" + "888"))
    ensures IsIPv6(("1111:222" + "2:3333:4") + ("444:5555" + "::8888"))
    ensures IsIPv6(("1111:222" + "2:3333:4") + ("444::888" + "8"))
    ensures IsIPv6(("1111:222" + "2:3333::") + "8888")
    ensures IsIPv6("1111:222" + "2::8888")
    ensures IsIPv6("1111::88" + "88")
    ensures IsIPv6("::8888")
    ensures IsIPv6((("1111:222" + "2:3333:4") + "444:5555") + ("::7777:8" + "888"))
    ensures IsIPv6(("1111:222" + "2:3333:4") + ("444::777" + "7:8888"))
    ensures IsIPv6(("1111:222" + "2:3333::") + ("7777:888" + "8"))
    ensures IsIPv6(("1111:222" + "2::7777:") + "8888")
    ensures IsIPv6("1111::77" + "77:8888")
    ensures IsIPv6("::7777:8" + "888")
    ensures IsIPv6((("1111:222" + "2:3333:4") + "444::666") + ("6:7777:8" + "888"))
    ensures IsIPv6(("1111:222" + "2:3333::") + ("6666:777" + "7:8888"))
    ensures IsIPv6(("1111:222" + "2::6666:") + ("7777:888" + "8"))
    ensures IsIPv6(("1111::66" + "66:7777:") + "8888")
    ensures IsIPv6("::6666:7" + "777:8888")
    ensures IsIPv6((("1111:222" + "2:3333::") + "5555:666") + ("6:7777:8" + "888"))
    ensures IsIPv6(("1111:222" + "2::5555:") + ("6666:777" + "7:8888"))
    ensures IsIPv6(("1111::55" + "55:6666:") + ("7777:888" + "8"))
    ensures IsIPv6(("::5555:6" + "666:7777") + ":8888")
    ensures IsIPv6((("1111:222" + "2::4444:") + "5555:666") + ("6:7777:8" + "888"))
    ensures IsIPv6(("1111::44" + "44:5555:") + ("6666:777" + "7:8888"))
    ensures IsIPv6(("::4444:5" + "555:6666") + (":7777:88" + "88"))
    ensures IsIPv6((("1111::33" + "33:4444:") + "5555:666") + ("6:7777:8" + "888"))
    ensures IsIPv6(("::3333:4" + "444:5555") + (":6666:77" + "77:8888"))
    ensures IsIPv6((("::2222:3" + "333:4444") + ":5555:66") + ("66:7777:" + "8888"))
    ensures IsIPv6((("1111:222" + "2:3333:4") + "444:5555") + ((":6666:12" + "3.123.12") + "3.123"))
    ensures IsIPv6((("1111:222" + "2:3333:4") + "444:5555") + (("::123.12" + "3.123.12") + "3"))
    ensures IsIPv6((("1111:222" + "2:3333:4") + "444::123") + (".123.123" + ".123"))
    ensures IsIPv6(("1111:222" + "2:3333::") + ("123.123." + "123.123"))
    ensures IsIPv6(("1111:222" + "2::123.1") + ("23.123.1" + "23"))
    ensures IsIPv6(("1111::12" + "3.123.12") + "3.123")
    ensures IsIPv6(("::123.12" + "3.123.12") + "3")
    ensures IsIPv6((("1111:222" + "2:3333:4") + "444::666") + (("6:123.12" + "3.123.12") + "3"))
    ensures IsIPv6((("1111:222" + "2:3333::") + "6666:123") + (".123.123" + ".123"))
    ensures IsIPv6(("1111:222" + "2::6666:") + ("123.123." + "123.123"))
    ensures IsIPv6(("1111::66" + "66:123.1") + ("23.123.1" + "23"))
    ensures IsIPv6(("::6666:1" + "23.123.1") + "23.123")
    ensures IsIPv6((("1111:222" + "2:3333::") + "5555:666") + (("6:123.12" + "3.123.12") + "3"))
    ensures IsIPv6((("1111:222" + "2::5555:") + "6666:123") + (".123.123" + ".123"))
    ensures IsIPv6(("1111::55" + "55:6666:") + ("123.123." + "123.123"))
    ensures IsIPv6(("::5555:6" + "666:123.") + ("123.123." + "123"))
    ensures IsIPv6((("1111:222" + "2::4444:") + "5555:666") + (("6:123.12" + "3.123.12") + "3"))
    ensures IsIPv6((("1111::44" + "44:5555:") + "6666:123") + (".123.123" + ".123"))
    ensures IsIPv6(("::4444:5" + "555:6666") + (":123.123" + ".123.123"))
    ensures IsIPv6((("1111::33" + "33:4444:") + "5555:666") + (("6:123.12" + "3.123.12") + "3"))
    ensures IsIPv6((("::2222:3" + "333:4444") + ":5555:66") + (("66:123.1" + "23.123.1") + "23"))
    ensures IsIPv6("::0:0:0:" + "0:0:0:0")
    ensures IsIPv6("::0:0:0:" + "0:0:0")
    ensures IsIPv6("::0:0:0:" + "0:0")
    ensures IsIPv6("::0:0:0:" + "0")
    ensures IsIPv6("::0:0:0")
    ensures IsIPv6("::0:0")
    ensures IsIPv6("::0")
    ensures IsIPv6("0:0:0:0:" + "0:0:0::")
    ensures IsIPv6("0:0:0:0:" + "0:0::")
    ensures IsIPv6("0:0:0:0:" + "0::")
    ensures IsIPv6("0:0:0:0:" + ":")
    ensures IsIPv6("0:0:0::")
    ensures IsIPv6("0:0::")
    ensures IsIPv6("0::")
  {
    Line258();
    Line259();
    Line260();
    Line261();
    Line262();
    Line263();
    Line264();
    Line265();
    Line267();
    Line268();
    Line269();
    Line270();
    Line271();
    Line272();
    Line273();
    Line274();
    Line275();
    Line276();
    Line277();
    Line278();
    Line279();
    Line280();
    Line281();
    Line282();
    Line283();
    Line284();
    Line285();
    Line286();
    Line287();
    Line288();
    Line289();
    Line290();
    Line291();
    Line292();
    Line293();
    Line294();
    Line295();
    Line296();
    Line297();
    Line298();
    Line299();
    Line300();
    Line301();
    Line302();
    Line303();
    Line304();
    Line305();
    Line306();
    Line307();
    Line308();
    Line309();
    Line310();
    Line311();
    Line312();
    Line313();
    Line314();
    Line315();
    Line317();
    Line318();
    Line319();
    Line320();
    Line321();
    Line322();
    Line323();
    Line324();
    Line325();
    Line326();
    Line327();
    Line328();
    Line329();
    Line330();
  }

  /** Lines 332-352: non-hex groups, nine pieces, too few pieces without "::" and groups of eight digits. */
  lemma Lines332To352()
    ensures !IsIPv6((("XXXX:XXX" + "X:XXXX:X") + "XXX:XXXX") + (":XXXX:XX" + "XX:XXXX"))
    ensures !IsIPv6((("1111:222" + "2:3333:4") + "444:5555") + ((":6666:77" + "77:8888:") + "9999"))
    ensures !IsIPv6((("1111:222" + "2:3333:4") + "444:5555") + ((":6666:77" + "77:8888:") + ":"))
    ensures !IsIPv6((("::2222:3" + "333:4444") + ":5555:66") + (("66:7777:" + "8888:999") + "9"))
    ensures !IsIPv6((("1111:222" + "2:3333:4") + "444:5555") + (":6666:77" + "77"))
    ensures !IsIPv6(("1111:222" + "2:3333:4") + ("444:5555" + ":6666"))
    ensures !IsIPv6(("1111:222" + "2:3333:4") + "444:5555")
    ensures !IsIPv6(("1111:222" + "2:3333:4") + "444")
    ensures !IsIPv6("1111:222" + "2:3333")
    ensures !IsIPv6("1111:222" + "2")
    ensures !IsIPv6("1111")
    ensures !IsIPv6((("11112222" + ":3333:44") + "44:5555:") + ("6666:777" + "7:8888"))
    ensures !IsIPv6((("1111:222" + "23333:44") + "44:5555:") + ("6666:777" + "7:8888"))
    ensures !IsIPv6((("1111:222" + "2:333344") + "44:5555:") + ("6666:777" + "7:8888"))
    ensures !IsIPv6((("1111:222" + "2:3333:4") + "4445555:") + ("6666:777" + "7:8888"))
    ensures !IsIPv6((("1111:222" + "2:3333:4") + "444:5555") + ("6666:777" + "7:8888"))
    ensures !IsIPv6((("1111:222" + "2:3333:4") + "444:5555") + (":6666777" + "7:8888"))
    ensures !IsIPv6((("1111:222" + "2:3333:4") + "444:5555") + (":6666:77" + "778888"))
  {
    Line332();
    Line334();
    Line335();
    Line336();
    Line338();
    Line339();
    Line340();
    Line341();
    Line342();
    Line343();
    Line344();
    Line346();
    Line347();
    Line348();
    Line349();
    Line350();
    Line351();
    Line352();
  }

  /** Lines 354-370: a single colon at either end. */
  lemma Lines354To370()
    ensures !IsIPv6((("1111:222" + "2:3333:4") + "444:5555") + (":6666:77" + "77:8888:"))
    ensures !IsIPv6((("1111:222" + "2:3333:4") + "444:5555") + (":6666:77" + "77:"))
    ensures !IsIPv6(("1111:222" + "2:3333:4") + ("444:5555" + ":6666:"))
    ensures !IsIPv6(("1111:222" + "2:3333:4") + ("444:5555" + ":"))
    ensures !IsIPv6(("1111:222" + "2:3333:4") + "444:")
    ensures !IsIPv6("1111:222" + "2:3333:")
    ensures !IsIPv6("1111:222" + "2:")
    ensures !IsIPv6("1111:")
    ensures !IsIPv6(":")
    ensures !IsIPv6(":8888")
    ensures !IsIPv6(":7777:88" + "88")
    ensures !IsIPv6(":6666:77" + "77:8888")
    ensures !IsIPv6((":5555:66" + "66:7777:") + "8888")
    ensures !IsIPv6((":4444:55" + "55:6666:") + ("7777:888" + "8"))
    ensures !IsIPv6((":3333:44" + "44:5555:") + ("6666:777" + "7:8888"))
    ensures !IsIPv6(((":2222:33" + "33:4444:") + "5555:666") + ("6:7777:8" + "888"))
    ensures !IsIPv6(((":1111:22" + "22:3333:") + "4444:555") + ("5:6666:7" + "777:8888"))
  {
    Line354();
    Line355();
    Line356();
    Line357();
    Line358();
    Line359();
    Line360();
    Line361();
    Line362();
    Line363();
    Line364();
    Line365();
    Line366();
    Line367();
    Line368();
    Line369();
    Line370();
  }

  /** Lines 372-406: ":::" and two "::". */
  lemma Lines372To406()
    ensures !IsIPv6(((":::2222:" + "3333:444") + "4:5555:6") + ("666:7777" + ":8888"))
    ensures !IsIPv6((("1111:::3" + "333:4444") + ":5555:66") + ("66:7777:" + "8888"))
    ensures !IsIPv6((("1111:222" + "2:::4444") + ":5555:66") + ("66:7777:" + "8888"))
    ensures !IsIPv6((("1111:222" + "2:3333::") + ":5555:66") + ("66:7777:" + "8888"))
    ensures !IsIPv6((("1111:222" + "2:3333:4") + "444:::66") + ("66:7777:" + "8888"))
    ensures !IsIPv6((("1111:222" + "2:3333:4") + "444:5555") + (":::7777:" + "8888"))
    ensures !IsIPv6((("1111:222" + "2:3333:4") + "444:5555") + (":6666:::" + "8888"))
    ensures !IsIPv6((("1111:222" + "2:3333:4") + "444:5555") + (":6666:77" + "77:::"))
    ensures !IsIPv6(("::2222::" + "4444:555") + ("5:6666:7" + "777:8888"))
    ensures !IsIPv6(("::2222:3" + "333::555") + ("5:6666:7" + "777:8888"))
    ensures !IsIPv6(("::2222:3" + "333:4444") + ("::6666:7" + "777:8888"))
    ensures !IsIPv6(("::2222:3" + "333:4444") + (":5555::7" + "777:8888"))
    ensures !IsIPv6(("::2222:3" + "333:4444") + (":5555:77" + "77::8888"))
    ensures !IsIPv6((("::2222:3" + "333:4444") + ":5555:77") + ("77:8888:" + ":"))
    ensures !IsIPv6(("1111::33" + "33::5555") + (":6666:77" + "77:8888"))
    ensures !IsIPv6(("1111::33" + "33:4444:") + (":6666:77" + "77:8888"))
    ensures !IsIPv6(("1111::33" + "33:4444:") + ("5555::77" + "77:8888"))
    ensures !IsIPv6(("1111::33" + "33:4444:") + ("5555:666" + "6::8888"))
    ensures !IsIPv6(("1111::33" + "33:4444:") + ("5555:666" + "6:7777::"))
    ensures !IsIPv6(("1111:222" + "2::4444:") + (":6666:77" + "77:8888"))
    ensures !IsIPv6(("1111:222" + "2::4444:") + ("5555::77" + "77:8888"))
    ensures !IsIPv6(("1111:222" + "2::4444:") + ("5555:666" + "6::8888"))
    ensures !IsIPv6(("1111:222" + "2::4444:") + ("5555:666" + "6:7777::"))
    ensures !IsIPv6(("1111:222" + "2:3333::") + ("5555::77" + "77:8888"))
    ensures !IsIPv6(("1111:222" + "2:3333::") + ("5555:666" + "6::8888"))
    ensures !IsIPv6(("1111:222" + "2:3333::") + ("5555:666" + "6:7777::"))
    ensures !IsIPv6(("1111:222" + "2:3333:4") + ("444::666" + "6::8888"))
    ensures !IsIPv6(("1111:222" + "2:3333:4") + ("444::666" + "6:7777::"))
    ensures !IsIPv6(("1111:222" + "2:3333:4") + ("444:5555" + "::7777::"))
  {
    Line372();
    Line373();
    Line374();
    Line375();
    Line376();
    Line377();
    Line378();
    Line379();
    Line381();
    Line382();
    Line383();
    Line384();
    Line385();
    Line386();
    Line388();
    Line389();
    Line390();
    Line391();
    Line392();
    Line394();
    Line395();
    Line396();
    Line397();
    Line399();
    Line400();
    Line401();
    Line403();
    Line404();
    Line406();
  }

  /** Lines 408-430: too many or too few groups before an IPv4 address, long groups and long octets. */
  lemma Lines408To430()
    ensures !IsIPv6((("1111:222" + "2:3333:4") + "444:5555") + ((":6666:77" + "77:8888:") + "1.2.3.4"))
    ensures !IsIPv6((("1111:222" + "2:3333:4") + "444:5555") + ((":6666:77" + "77:1.2.3") + ".4"))
    ensures !IsIPv6((("1111:222" + "2:3333:4") + "444:5555") + (":6666::1" + ".2.3.4"))
    ensures !IsIPv6((("::2222:3" + "333:4444") + ":5555:66") + ("66:7777:" + "1.2.3.4"))
    ensures !IsIPv6((("1111:222" + "2:3333:4") + "444:5555") + (":6666:1." + "2.3.4.5"))
    ensures !IsIPv6(("1111:222" + "2:3333:4") + ("444:5555" + ":1.2.3.4"))
    ensures !IsIPv6(("1111:222" + "2:3333:4") + ("444:1.2." + "3.4"))
    ensures !IsIPv6(("1111:222" + "2:3333:1") + ".2.3.4")
    ensures !IsIPv6(("1111:222" + "2:1.2.3.") + "4")
    ensures !IsIPv6("1111:1.2" + ".3.4")
    ensures !IsIPv6("1.2.3.4")
    ensures !IsIPv6((("11112222" + ":3333:44") + "44:5555:") + ("6666:1.2" + ".3.4"))
    ensures !IsIPv6((("1111:222" + "23333:44") + "44:5555:") + ("6666:1.2" + ".3.4"))
    ensures !IsIPv6((("1111:222" + "2:333344") + "44:5555:") + ("6666:1.2" + ".3.4"))
    ensures !IsIPv6((("1111:222" + "2:3333:4") + "4445555:") + ("6666:1.2" + ".3.4"))
    ensures !IsIPv6((("1111:222" + "2:3333:4") + "444:5555") + ("6666:1.2" + ".3.4"))
    ensures !IsIPv6((("1111:222" + "2:3333:4") + "444:5555") + (":66661.2" + ".3.4"))
    ensures !IsIPv6((("1111:222" + "2:3333:4") + "444:5555") + ((":6666:25" + "5255.255") + ".255"))
    ensures !IsIPv6((("1111:222" + "2:3333:4") + "444:5555") + ((":6666:25" + "5.255255") + ".255"))
    ensures !IsIPv6((("1111:222" + "2:3333:4") + "444:5555") + ((":6666:25" + "5.255.25") + "5255"))
  {
    Line408();
    Line409();
    Line410();
    Line411();
    Line412();
    Line414();
    Line415();
    Line416();
    Line417();
    Line418();
    Line419();
    Line421();
    Line422();
    Line423();
    Line424();
    Line425();
    Line426();
    Line428();
    Line429();
    Line430();
  }

  /** Lines 432-459: single colons, ":::" and two "::" with an IPv4 tail. */
  lemma Lines432To459()
    ensures !IsIPv6(":1.2.3.4")
    ensures !IsIPv6(":6666:1." + "2.3.4")
    ensures !IsIPv6((":5555:66" + "66:1.2.3") + ".4")
    ensures !IsIPv6((":4444:55" + "55:6666:") + "1.2.3.4")
    ensures !IsIPv6((":3333:44" + "44:5555:") + ("6666:1.2" + ".3.4"))
    ensures !IsIPv6(((":2222:33" + "33:4444:") + "5555:666") + ("6:1.2.3." + "4"))
    ensures !IsIPv6(((":1111:22" + "22:3333:") + "4444:555") + ("5:6666:1" + ".2.3.4"))
    ensures !IsIPv6(((":::2222:" + "3333:444") + "4:5555:6") + ("666:1.2." + "3.4"))
    ensures !IsIPv6((("1111:::3" + "333:4444") + ":5555:66") + ("66:1.2.3" + ".4"))
    ensures !IsIPv6((("1111:222" + "2:::4444") + ":5555:66") + ("66:1.2.3" + ".4"))
    ensures !IsIPv6((("1111:222" + "2:3333::") + ":5555:66") + ("66:1.2.3" + ".4"))
    ensures !IsIPv6((("1111:222" + "2:3333:4") + "444:::66") + ("66:1.2.3" + ".4"))
    ensures !IsIPv6((("1111:222" + "2:3333:4") + "444:5555") + (":::1.2.3" + ".4"))
    ensures !IsIPv6(("::2222::" + "4444:555") + ("5:6666:1" + ".2.3.4"))
    ensures !IsIPv6(("::2222:3" + "333::555") + ("5:6666:1" + ".2.3.4"))
    ensures !IsIPv6(("::2222:3" + "333:4444") + ("::6666:1" + ".2.3.4"))
    ensures !IsIPv6(("::2222:3" + "333:4444") + (":5555::1" + ".2.3.4"))
    ensures !IsIPv6(("1111::33" + "33::5555") + (":6666:1." + "2.3.4"))
    ensures !IsIPv6(("1111::33" + "33:4444:") + (":6666:1." + "2.3.4"))
    ensures !IsIPv6(("1111::33" + "33:4444:") + ("5555::1." + "2.3.4"))
    ensures !IsIPv6(("1111:222" + "2::4444:") + (":6666:1." + "2.3.4"))
    ensures !IsIPv6(("1111:222" + "2::4444:") + ("5555::1." + "2.3.4"))
    ensures !IsIPv6(("1111:222" + "2:3333::") + ("5555::1." + "2.3.4"))
  {
    Line432();
    Line433();
    Line434();
    Line435();
    Line436();
    Line437();
    Line438();
    Line440();
    Line441();
    Line442();
    Line443();
    Line444();
    Line445();
    Line447();
    Line448();
    Line449();
    Line450();
    Line452();
    Line453();
    Line454();
    Line456();
    Line457();
    Line459();
  }

  /** Lines 461-472: "::" followed by dots only. */
  lemma Lines461To472()
    ensures !IsIPv6("::.")
    ensures !IsIPv6("::..")
    ensures !IsIPv6("::...")
    ensures !IsIPv6("::1...")
    ensures !IsIPv6("::1.2..")
    ensures !IsIPv6("::1.2.3.")
    ensures !IsIPv6("::.2..")
    ensures !IsIPv6("::.2.3.")
    ensures !IsIPv6("::.2.3.4")
    ensures !IsIPv6("::..3.")
    ensures !IsIPv6("::..3.4")
    ensures !IsIPv6("::...4")
  {
    Line461();
    Line462();
    Line463();
    Line464();
    Line465();
    Line466();
    Line467();
    Line468();
    Line469();
    Line470();
    Line471();
    Line472();
  }

  /** Lines 474-530: a leading single colon before groups, "::" or an IPv4 tail. */
  lemma Lines474To530()
    ensures !IsIPv6(((":1111:22" + "22:3333:") + "4444:555") + ("5:6666:7" + "777::"))
    ensures !IsIPv6((":1111:22" + "22:3333:") + ("4444:555" + "5:6666::"))
    ensures !IsIPv6((":1111:22" + "22:3333:") + ("4444:555" + "5::"))
    ensures !IsIPv6((":1111:22" + "22:3333:") + "4444::")
    ensures !IsIPv6((":1111:22" + "22:3333:") + ":")
    ensures !IsIPv6(":1111:22" + "22::")
    ensures !IsIPv6(":1111::")
    ensures !IsIPv6(":::")
    ensures !IsIPv6(((":1111:22" + "22:3333:") + "4444:555") + ("5:6666::" + "8888"))
    ensures !IsIPv6((":1111:22" + "22:3333:") + ("4444:555" + "5::8888"))
    ensures !IsIPv6((":1111:22" + "22:3333:") + ("4444::88" + "88"))
    ensures !IsIPv6((":1111:22" + "22:3333:") + ":8888")
    ensures !IsIPv6(":1111:22" + "22::8888")
    ensures !IsIPv6(":1111::8" + "888")
    ensures !IsIPv6(":::8888")
    ensures !IsIPv6(((":1111:22" + "22:3333:") + "4444:555") + ("5::7777:" + "8888"))
    ensures !IsIPv6((":1111:22" + "22:3333:") + ("4444::77" + "77:8888"))
    ensures !IsIPv6((":1111:22" + "22:3333:") + (":7777:88" + "88"))
    ensures !IsIPv6((":1111:22" + "22::7777") + ":8888")
    ensures !IsIPv6(":1111::7" + "777:8888")
    ensures !IsIPv6(":::7777:" + "8888")
    ensures !IsIPv6(((":1111:22" + "22:3333:") + "4444::66") + ("66:7777:" + "8888"))
    ensures !IsIPv6((":1111:22" + "22:3333:") + (":6666:77" + "77:8888"))
    ensures !IsIPv6((":1111:22" + "22::6666") + (":7777:88" + "88"))
    ensures !IsIPv6((":1111::6" + "666:7777") + ":8888")
    ensures !IsIPv6((":::6666:" + "7777:888") + "8")
    ensures !IsIPv6(((":1111:22" + "22:3333:") + ":5555:66") + ("66:7777:" + "8888"))
    ensures !IsIPv6((":1111:22" + "22::5555") + (":6666:77" + "77:8888"))
    ensures !IsIPv6((":1111::5" + "555:6666") + (":7777:88" + "88"))
    ensures !IsIPv6((":::5555:" + "6666:777") + "7:8888")
    ensures !IsIPv6(((":1111:22" + "22::4444") + ":5555:66") + ("66:7777:" + "8888"))
    ensures !IsIPv6((":1111::4" + "444:5555") + (":6666:77" + "77:8888"))
    ensures !IsIPv6((":::4444:" + "5555:666") + ("6:7777:8" + "888"))
    ensures !IsIPv6(((":1111::3" + "333:4444") + ":5555:66") + ("66:7777:" + "8888"))
    ensures !IsIPv6((":::3333:" + "4444:555") + ("5:6666:7" + "777:8888"))
    ensures !IsIPv6(((":::2222:" + "3333:444") + "4:5555:6") + ("666:7777" + ":8888"))
    ensures !IsIPv6(((":1111:22" + "22:3333:") + "4444:555") + ("5:6666:1" + ".2.3.4"))
    ensures !IsIPv6(((":1111:22" + "22:3333:") + "4444:555") + ("5::1.2.3" + ".4"))
    ensures !IsIPv6((":1111:22" + "22:3333:") + ("4444::1." + "2.3.4"))
    ensures !IsIPv6((":1111:22" + "22:3333:") + ":1.2.3.4")
    ensures !IsIPv6((":1111:22" + "22::1.2.") + "3.4")
    ensures !IsIPv6(":1111::1" + ".2.3.4")
    ensures !IsIPv6(":::1.2.3" + ".4")
    ensures !IsIPv6(((":1111:22" + "22:3333:") + "4444::66") + ("66:1.2.3" + ".4"))
    ensures !IsIPv6((":1111:22" + "22:3333:") + (":6666:1." + "2.3.4"))
    ensures !IsIPv6((":1111:22" + "22::6666") + ":1.2.3.4")
    ensures !IsIPv6((":1111::6" + "666:1.2.") + "3.4")
    ensures !IsIPv6(":::6666:" + "1.2.3.4")
    ensures !IsIPv6(((":1111:22" + "22:3333:") + ":5555:66") + ("66:1.2.3" + ".4"))
    ensures !IsIPv6((":1111:22" + "22::5555") + (":6666:1." + "2.3.4"))
    ensures !IsIPv6((":1111::5" + "555:6666") + ":1.2.3.4")
    ensures !IsIPv6((":::5555:" + "6666:1.2") + ".3.4")
    ensures !IsIPv6(((":1111:22" + "22::4444") + ":5555:66") + ("66:1.2.3" + ".4"))
    ensures !IsIPv6((":1111::4" + "444:5555") + (":6666:1." + "2.3.4"))
    ensures !IsIPv6((":::4444:" + "5555:666") + ("6:1.2.3." + "4"))
    ensures !IsIPv6(((":1111::3" + "333:4444") + ":5555:66") + ("66:1.2.3" + ".4"))
    ensures !IsIPv6(((":::2222:" + "3333:444") + "4:5555:6") + ("666:1.2." + "3.4"))
  {
    Line474();
    Line475();
    Line476();
    Line477();
    Line478();
    Line479();
    Line480();
    Line481();
    Line482();
    Line483();
    Line484();
    Line485();
    Line486();
    Line487();
    Line488();
    Line489();
    Line490();
    Line491();
    Line492();
    Line493();
    Line494();
    Line495();
    Line496();
    Line497();
    Line498();
    Line499();
    Line500();
    Line501();
    Line502();
    Line503();
    Line504();
    Line505();
    Line506();
    Line507();
    Line508();
    Line509();
    Line510();
    Line511();
    Line512();
    Line513();
    Line514();
    Line515();
    Line516();
    Line517();
    Line518();
    Line519();
    Line520();
    Line521();
    Line522();
    Line523();
    Line524();
    Line525();
    Line526();
    Line527();
    Line528();
    Line529();
    Line530();
  }

  /** Lines 532-567: ":::" at the end and other trailing colons. */
  lemma Lines532To567()
    ensures !IsIPv6((("1111:222" + "2:3333:4") + "444:5555") + (":6666:77" + "77:::"))
    ensures !IsIPv6(("1111:222" + "2:3333:4") + ("444:5555" + ":6666:::"))
    ensures !IsIPv6(("1111:222" + "2:3333:4") + ("444:5555" + ":::"))
    ensures !IsIPv6(("1111:222" + "2:3333:4") + "444:::")
    ensures !IsIPv6(("1111:222" + "2:3333::") + ":")
    ensures !IsIPv6("1111:222" + "2:::")
    ensures !IsIPv6("1111:::")
    ensures !IsIPv6(":::")
    ensures !IsIPv6((("1111:222" + "2:3333:4") + "444:5555") + (":6666::8" + "888:"))
    ensures !IsIPv6(("1111:222" + "2:3333:4") + ("444:5555" + "::8888:"))
    ensures !IsIPv6(("1111:222" + "2:3333:4") + ("444::888" + "8:"))
    ensures !IsIPv6(("1111:222" + "2:3333::") + "8888:")
    ensures !IsIPv6("1111:222" + "2::8888:")
    ensures !IsIPv6("1111::88" + "88:")
    ensures !IsIPv6("::8888:")
    ensures !IsIPv6((("1111:222" + "2:3333:4") + "444:5555") + ("::7777:8" + "888:"))
    ensures !IsIPv6(("1111:222" + "2:3333:4") + ("444::777" + "7:8888:"))
    ensures !IsIPv6(("1111:222" + "2:3333::") + ("7777:888" + "8:"))
    ensures !IsIPv6(("1111:222" + "2::7777:") + "8888:")
    ensures !IsIPv6("1111::77" + "77:8888:")
    ensures !IsIPv6("::7777:8" + "888:")
    ensures !IsIPv6((("1111:222" + "2:3333:4") + "444::666") + ("6:7777:8" + "888:"))
    ensures !IsIPv6(("1111:222" + "2:3333::") + ("6666:777" + "7:8888:"))
    ensures !IsIPv6(("1111:222" + "2::6666:") + ("7777:888" + "8:"))
    ensures !IsIPv6(("1111::66" + "66:7777:") + "8888:")
    ensures !IsIPv6(("::6666:7" + "777:8888") + ":")
    ensures !IsIPv6((("1111:222" + "2:3333::") + "5555:666") + ("6:7777:8" + "888:"))
    ensures !IsIPv6(("1111:222" + "2::5555:") + ("6666:777" + "7:8888:"))
    ensures !IsIPv6(("1111::55" + "55:6666:") + ("7777:888" + "8:"))
    ensures !IsIPv6(("::5555:6" + "666:7777") + ":8888:")
    ensures !IsIPv6((("1111:222" + "2::4444:") + "5555:666") + ("6:7777:8" + "888:"))
    ensures !IsIPv6(("1111::44" + "44:5555:") + ("6666:777" + "7:8888:"))
    ensures !IsIPv6(("::4444:5" + "555:6666") + (":7777:88" + "88:"))
    ensures !IsIPv6((("1111::33" + "33:4444:") + "5555:666") + ("6:7777:8" + "888:"))
    ensures !IsIPv6(("::3333:4" + "444:5555") + (":6666:77" + "77:8888:"))
    ensures !IsIPv6((("::2222:3" + "333:4444") + ":5555:66") + ("66:7777:" + "8888:"))
  {
    Line532();
    Line533();
    Line534();
    Line535();
    Line536();
    Line537();
    Line538();
    Line539();
    Line540();
    Line541();
    Line542();
    Line543();
    Line544();
    Line545();
    Line546();
    Line547();
    Line548();
    Line549();
    Line550();
    Line551();
    Line552();
    Line553();
    Line554();
    Line555();
    Line556();
    Line557();
    Line558();
    Line559();
    Line560();
    Line561();
    Line562();
    Line563();
    Line564();
    Line565();
    Line566();
    Line567();
  }

  /** Lines 569-572: "::" at either end of seven groups, and a quote character. */
  lemma Lines569To572()
    ensures IsIPv6("0:a:b:c:" + "d:e:f::")
    ensures IsIPv6("::0:a:b:" + "c:d:e:f")
    ensures IsIPv6("a:b:c:d:" + "e:f:0::")
    ensures !IsIPv6("':10.0.0" + ".1")
  {
    Line569();
    Line570();
    Line571();
    Line572();
  }

  // ---------------------------------------------------------------------------
  // One entry each

  lemma Line33()
    ensures !IsIPv6("")
  {
  }

  lemma Line34()
    ensures IsIPv6("::1")
  {
  }

  lemma Line35()
    ensures IsIPv6("::")
  {
  }

  lemma Line36()
    ensures IsIPv6("0:0:0:0:" + "0:0:0:1")
  {
    var s := "0:0:0:0:" + "0:0:0:1";
    assert Sep(s, 15, 8, false);
    assert Sep(s, 13, 7, false);
    assert Sep(s, 11, 6, false);
    assert Sep(s, 9, 5, false);
    assert Sep(s, 7, 4, false);
    assert Sep(s, 5, 3, false);
    assert Sep(s, 3, 2, false);
    assert Sep(s, 1, 1, false);
    assert Run(s, 1, 0, false, 1);
  }

  lemma Line37()
    ensures IsIPv6("0:0:0:0:" + "0:0:0:0")
  {
    var s := "0:0:0:0:" + "0:0:0:0";
    assert Sep(s, 15, 8, false);
    assert Sep(s, 13, 7, false);
    assert Sep(s, 11, 6, false);
    assert Sep(s, 9, 5, false);
    assert Sep(s, 7, 4, false);
    assert Sep(s, 5, 3, false);
    assert Sep(s, 3, 2, false);
    assert Sep(s, 1, 1, false);
    assert Run(s, 1, 0, false, 1);
  }

  lemma Line38()
    ensures IsIPv6(("2001:DB8" + ":0:0:8:8") + ("00:200C:" + "417A"))
  {
    var s := ("2001:DB8" + ":0:0:8:8") + ("00:200C:" + "417A");
    assert Sep(s, 28, 8, false);
    assert Run(s, 26, 7, false, 2);
    assert Sep(s, 23, 7, false);
    assert Run(s, 21, 6, false, 2);
    assert Sep(s, 18, 6, false);
    assert Run(s, 16, 5, false, 1);
    assert Run(s, 14, 4, false, 1);
    assert Run(s, 12, 3, false, 1);
    assert Run(s, 10, 2, false, 1);
    assert Run(s, 8, 1, false, 3);
    assert Run(s, 5, 1, false, 0);
    assert Run(s, 3, 0, false, 3);
    assert Run(s, 1, 0, false, 1);
  }

  lemma Line39()
    ensures IsIPv6(("FF01:0:0" + ":0:0:0:0") + ":101")
  {
    var s := ("FF01:0:0" + ":0:0:0:0") + ":101";
    assert Sep(s, 20, 8, false);
    assert Run(s, 18, 7, false, 1);
    assert Run(s, 16, 6, false, 1);
    assert Run(s, 14, 5, false, 1);
    assert Run(s, 12, 4, false, 1);
    assert Run(s, 10, 3, false, 1);
    assert Run(s, 8, 2, false, 1);
    assert Run(s, 6, 1, false, 1);
    assert Run(s, 4, 0, false, 4);
    assert Run(s, 1, 0, false, 1);
  }

  lemma Line40()
    ensures IsIPv6(("2001:DB8" + "::8:800:") + ("200C:417" + "A"))
  {
    var s := ("2001:DB8" + "::8:800:") + ("200C:417" + "A");
    assert Sep(s, 25, 6, true);
    assert Run(s, 23, 5, true, 2);
    assert Sep(s, 20, 5, true);
    assert Run(s, 18, 4, true, 2);
    assert Sep(s, 15, 4, true);
    assert Run(s, 13, 3, true, 1);
    assert Run(s, 11, 2, true, 1);
    assert Run(s, 8, 1, false, 3);
    assert Run(s, 5, 1, false, 0);
    assert Run(s, 3, 0, false, 3);
    assert Run(s, 1, 0, false, 1);
  }

  lemma Line41()
    ensures IsIPv6("FF01::10" + "1")
  {
    var s := "FF01::10" + "1";
    assert Sep(s, 9, 2, true);
    assert Run(s, 7, 1, true, 1);
    assert Run(s, 4, 0, false, 4);
    assert Run(s, 1, 0, false, 1);
  }

  lemma Line42()
    ensures !IsIPv6(("2001:DB8" + ":0:0:8:8") + ("00:200C:" + "417A:221"))
  {
    var s := ("2001:DB8" + ":0:0:8:8") + ("00:200C:" + "417A:221");
    assert !Sep(s, 32, 9, false);
    assert !Run(s, 31, 8, false, 2);
    assert !Run(s, 29, 8, false, 0);
    assert !Run(s, 28, 7, false, 4);
    assert !Run(s, 26, 7, false, 2);
    assert !Run(s, 24, 7, false, 0);
    assert !Run(s, 23, 6, false, 4);
    assert !Run(s, 21, 6, false, 2);
    assert !Run(s, 19, 6, false, 0);
    assert !Run(s, 18, 5, false, 3);
    assert !Run(s, 16, 5, false, 1);
    assert !Sep(s, 14, 5, false);
    assert !Run(s, 13, 4, false, 0);
    assert !Run(s, 12, 3, false, 1);
    assert !Sep(s, 10, 3, false);
    assert !Run(s, 9, 2, false, 0);
    assert !Run(s, 8, 1, false, 3);
    assert !Run(s, 6, 1, false, 1);
    assert !Sep(s, 4, 1, false);
    assert !Run(s, 3, 0, false, 3);
    assert !Run(s, 1, 0, false, 1);
  }

  lemma Line43()
    ensures !IsIPv6("FF01::10" + "1::2")
  {
    var s := "FF01::10" + "1::2";
    assert !Sep(s, 9, 2, true);
    assert !Run(s, 8, 1, true, 2);
    assert !Run(s, 6, 1, true, 0);
    assert !Run(s, 4, 0, false, 4);
    assert !Run(s, 2, 0, false, 2);
    assert !Run(s, 1, 0, false, 1);
  }

  lemma Line44()
    ensures IsIPv6(("fe80::21" + "7:f2ff:f") + "e07:ed62")
  {
    var s := ("fe80::21" + "7:f2ff:f") + "e07:ed62";
    assert Sep(s, 24, 5, true);
    assert Run(s, 22, 4, true, 2);
    assert Sep(s, 19, 4, true);
    assert Run(s, 17, 3, true, 2);
    assert Sep(s, 14, 3, true);
    assert Run(s, 12, 2, true, 2);
    assert Sep(s, 9, 2, true);
    assert Run(s, 7, 1, true, 1);
    assert Run(s, 4, 0, false, 4);
    assert Run(s, 1, 0, false, 1);
  }

  lemma Line46()
    ensures IsIPv6((("2001:000" + "0:1234:0") + "000:0000") + (":C1C0:AB" + "CD:0876"))
  {
    var s := (("2001:000" + "0:1234:0") + "000:0000") + (":C1C0:AB" + "CD:0876");
    assert Sep(s, 39, 8, false);
    assert Run(s, 37, 7, false, 2);
    assert Sep(s, 34, 7, false);
    assert Run(s, 32, 6, false, 2);
    assert Sep(s, 29, 6, false);
    assert Run(s, 27, 5, false, 2);
    assert Sep(s, 24, 5, false);
    assert Run(s, 22, 4, false, 2);
    assert Sep(s, 19, 4, false);
    assert Run(s, 17, 3, false, 2);
    assert Sep(s, 14, 3, false);
    assert Run(s, 12, 2, false, 2);
    assert Sep(s, 9, 2, false);
    assert Run(s, 7, 1, false, 2);
    assert Sep(s, 4, 1, false);
    assert Run(s, 2, 0, false, 2);
    assert Run(s, 1, 0, false, 1);
  }

  lemma Line47()
    ensures IsIPv6((("3ffe:0b0" + "0:0000:0") + "000:0001") + (":0000:00" + "00:000a"))
  {
    var s := (("3ffe:0b0" + "0:0000:0") + "000:0001") + (":0000:00" + "00:000a");
    assert Sep(s, 39, 8, false);
    assert Run(s, 37, 7, false, 2);
    assert Sep(s, 34, 7, false);
    assert Run(s, 32, 6, false, 2);
    assert Sep(s, 29, 6, false);
    assert Run(s, 27, 5, false, 2);
    assert Sep(s, 24, 5, false);
    assert Run(s, 22, 4, false, 2);
    assert Sep(s, 19, 4, false);
    assert Run(s, 17, 3, false, 2);
    assert Sep(s, 14, 3, false);
    assert Run(s, 12, 2, false, 2);
    assert Sep(s, 9, 2, false);
    assert Run(s, 7, 1, false, 2);
    assert Sep(s, 4, 1, false);
    assert Run(s, 2, 0, false, 2);
    assert Run(s, 1, 0, false, 1);
  }

  lemma Line48()
    ensures IsIPv6((("FF02:000" + "0:0000:0") + "000:0000") + (":0000:00" + "00:0001"))
  {
    var s := (("FF02:000" + "0:0000:0") + "000:0000") + (":0000:00" + "00:0001");
    assert Sep(s, 39, 8, false);
    assert Run(s, 37, 7, false, 2);
    assert Sep(s, 34, 7, false);
    assert Run(s, 32, 6, false, 2);
    assert Sep(s, 29, 6, false);
    assert Run(s, 27, 5, false, 2);
    assert Sep(s, 24, 5, false);
    assert Run(s, 22, 4, false, 2);
    assert Sep(s, 19, 4, false);
    assert Run(s, 17, 3, false, 2);
    assert Sep(s, 14, 3, false);
    assert Run(s, 12, 2, false, 2);
    assert Sep(s, 9, 2, false);
    assert Run(s, 7, 1, false, 2);
    assert Sep(s, 4, 1, false);
    assert Run(s, 2, 0, false, 2);
    assert Run(s, 1, 0, false, 1);
  }

  lemma Line49()
    ensures IsIPv6((("0000:000" + "0:0000:0") + "000:0000") + (":0000:00" + "00:0001"))
  {
    var s := (("0000:000" + "0:0000:0") + "000:0000") + (":0000:00" + "00:0001");
    assert Sep(s, 39, 8, false);
    assert Run(s, 37, 7, false, 2);
    assert Sep(s, 34, 7, false);
    assert Run(s, 32, 6, false, 2);
    assert Sep(s, 29, 6, false);
    assert Run(s, 27, 5, false, 2);
    assert Sep(s, 24, 5, false);
    assert Run(s, 22, 4, false, 2);
    assert Sep(s, 19, 4, false);
    assert Run(s, 17, 3, false, 2);
    assert Sep(s, 14, 3, false);
    assert Run(s, 12, 2, false, 2);
    assert Sep(s, 9, 2, false);
    assert Run(s, 7, 1, false, 2);
    assert Sep(s, 4, 1, false);
    assert Run(s, 2, 0, false, 2);
    assert Run(s, 1, 0, false, 1);
  }

  lemma Line50()
    ensures IsIPv6((("0000:000" + "0:0000:0") + "000:0000") + (":0000:00" + "00:0000"))
  {
    var s := (("0000:000" + "0:0000:0") + "000:0000") + (":0000:00" + "00:0000");
    assert Sep(s, 39, 8, false);
    assert Run(s, 37, 7, false, 2);
    assert Sep(s, 34, 7, false);
    assert Run(s, 32, 6, false, 2);
    assert Sep(s, 29, 6, false);
    assert Run(s, 27, 5, false, 2);
    assert Sep(s, 24, 5, false);
    assert Run(s, 22, 4, false, 2);
    assert Sep(s, 19, 4, false);
    assert Run(s, 17, 3, false, 2);
    assert Sep(s, 14, 3, false);
    assert Run(s, 12, 2, false, 2);
    assert Sep(s, 9, 2, false);
    assert Run(s, 7, 1, false, 2);
    assert Sep(s, 4, 1, false);
    assert Run(s, 2, 0, false, 2);
    assert Run(s, 1, 0, false, 1);
  }

  lemma Line51()
    ensures !IsIPv6((("02001:00" + "00:1234:") + "0000:000") + ("0:C1C0:A" + "BCD:0876"))
  {
    var s := (("02001:00" + "00:1234:") + "0000:000") + ("0:C1C0:A" + "BCD:0876");
    assert !Run(s, 4, 0, false, 4);
    assert !Run(s, 2, 0, false, 2);
    assert !Run(s, 1, 0, false, 1);
  }

  lemma Line52()
    ensures !IsIPv6((("2001:000" + "0:1234:0") + "000:0000") + ("1:C1C0:A" + "BCD:0876"))
  {
    var s := (("2001:000" + "0:1234:0") + "000:0000") + ("1:C1C0:A" + "BCD:0876");
    assert !Run(s, 24, 4, false, 4);
    assert !Run(s, 22, 4, false, 2);
    assert !Run(s, 20, 4, false, 0);
    assert !Run(s, 19, 3, false, 4);
    assert !Run(s, 17, 3, false, 2);
    assert !Run(s, 15, 3, false, 0);
    assert !Run(s, 14, 2, false, 4);
    assert !Run(s, 12, 2, false, 2);
    assert !Run(s, 10, 2, false, 0);
    assert !Run(s, 9, 1, false, 4);
    assert !Run(s, 7, 1, false, 2);
    assert !Run(s, 5, 1, false, 0);
    assert !Run(s, 4, 0, false, 4);
    assert !Run(s, 2, 0, false, 2);
    assert !Run(s, 1, 0, false, 1);
  }

  lemma Line53()
    ensures !IsIPv6((("2001:000" + "0:1234:0") + "000:0000") + ((":C1C0:AB" + "CD:0876 ") + " 0"))
  {
    var s := (("2001:000" + "0:1234:0") + "000:0000") + ((":C1C0:AB" + "CD:0876 ") + " 0");
    assert !Sep(s, 39, 8, false);
    assert !Run(s, 38, 7, false, 3);
    assert !Run(s, 36, 7, false, 1);
    assert !Sep(s, 34, 7, false);
    assert !Run(s, 33, 6, false, 3);
    assert !Run(s, 31, 6, false, 1);
    assert !Sep(s, 29, 6, false);
    assert !Run(s, 28, 5, false, 3);
    assert !Run(s, 26, 5, false, 1);
    assert !Sep(s, 24, 5, false);
    assert !Run(s, 23, 4, false, 3);
    assert !Run(s, 21, 4, false, 1);
    assert !Sep(s, 19, 4, false);
    assert !Run(s, 18, 3, false, 3);
    assert !Run(s, 16, 3, false, 1);
    assert !Sep(s, 14, 3, false);
    assert !Run(s, 13, 2, false, 3);
    assert !Run(s, 11, 2, false, 1);
    assert !Sep(s, 9, 2, false);
    assert !Run(s, 8, 1, false, 3);
    assert !Run(s, 6, 1, false, 1);
    assert !Sep(s, 4, 1, false);
    assert !Run(s, 3, 0, false, 3);
    assert !Run(s, 1, 0, false, 1);
  }

  lemma Line54()
    ensures !IsIPv6((("2001:000" + "0:1234: ") + "0000:000") + ("0:C1C0:A" + "BCD:0876"))
  {
    var s := (("2001:000" + "0:1234: ") + "0000:000") + ("0:C1C0:A" + "BCD:0876");
    assert !Run(s, 15, 3, false, 0);
    assert !Run(s, 14, 2, false, 4);
    assert !Run(s, 12, 2, false, 2);
    assert !Run(s, 10, 2, false, 0);
    assert !Run(s, 9, 1, false, 4);
    assert !Run(s, 7, 1, false, 2);
    assert !Run(s, 5, 1, false, 0);
    assert !Run(s, 4, 0, false, 4);
    assert !Run(s, 2, 0, false, 2);
    assert !Run(s, 1, 0, false, 1);
  }

  lemma Line56()
    ensures !IsIPv6((("3ffe:0b0" + "0:0000:0") + "001:0000") + (":0000:00" + "0a"))
  {
    var s := (("3ffe:0b0" + "0:0000:0") + "001:0000") + (":0000:00" + "0a");
    assert !Sep(s, 34, 7, false);
    assert !Run(s, 33, 6, false, 3);
    assert !Run(s, 31, 6, false, 1);
    assert !Sep(s, 29, 6, false);
    assert !Run(s, 28, 5, false, 3);
    assert !Run(s, 26, 5, false, 1);
    assert !Sep(s, 24, 5, false);
    assert !Run(s, 23, 4, false, 3);
    assert !Run(s, 21, 4, false, 1);
    assert !Sep(s, 19, 4, false);
    assert !Run(s, 18, 3, false, 3);
    assert !Run(s, 16, 3, false, 1);
    assert !Sep(s, 14, 3, false);
    assert !Run(s, 13, 2, false, 3);
    assert !Run(s, 11, 2, false, 1);
    assert !Sep(s, 9, 2, false);
    assert !Run(s, 8, 1, false, 3);
    assert !Run(s, 6, 1, false, 1);
    assert !Sep(s, 4, 1, false);
    assert !Run(s, 3, 0, false, 3);
    assert !Run(s, 1, 0, false, 1);
  }

  lemma Line57()
    ensures !IsIPv6((("FF02:000" + "0:0000:0") + "000:0000") + ((":0000:00" + "00:0000:") + "0001"))
  {
    var s := (("FF02:000" + "0:0000:0") + "000:0000") + ((":0000:00" + "00:0000:") + "0001");
    assert !Sep(s, 44, 9, false);
    assert !Run(s, 43, 8, false, 3);
    assert !Run(s, 41, 8, false, 1);
    assert !Sep(s, 39, 8, false);
    assert !Run(s, 38, 7, false, 3);
    assert !Run(s, 36, 7, false, 1);
    assert !Sep(s, 34, 7, false);
    assert !Run(s, 33, 6, false, 3);
    assert !Run(s, 31, 6, false, 1);
    assert !Sep(s, 29, 6, false);
    assert !Run(s, 28, 5, false, 3);
    assert !Run(s, 26, 5, false, 1);
    assert !Sep(s, 24, 5, false);
    assert !Run(s, 23, 4, false, 3);
    assert !Run(s, 21, 4, false, 1);
    assert !Sep(s, 19, 4, false);
    assert !Run(s, 18, 3, false, 3);
    assert !Run(s, 16, 3, false, 1);
    assert !Sep(s, 14, 3, false);
    assert !Run(s, 13, 2, false, 3);
    assert !Run(s, 11, 2, false, 1);
    assert !Sep(s, 9, 2, false);
    assert !Run(s, 8, 1, false, 3);
    assert !Run(s, 6, 1, false, 1);
    assert !Sep(s, 4, 1, false);
    assert !Run(s, 3, 0, false, 3);
    assert !Run(s, 1, 0, false, 1);
  }

  lemma Line58()
    ensures !IsIPv6("3ffe:b00" + "::1::a")
  {
    var s := "3ffe:b00" + "::1::a";
    assert !Sep(s, 11, 3, true);
    assert !Run(s, 10, 2, true, 0);
    assert !Run(s, 8, 1, false, 3);
    assert !Run(s, 6, 1, false, 1);
    assert !Sep(s, 4, 1, false);
    assert !Run(s, 3, 0, false, 3);
    assert !Run(s, 1, 0, false, 1);
  }

  lemma Line59()
    ensures !IsIPv6((("::1111:2" + "222:3333") + ":4444:55") + ("55:6666:" + ":"))
  {
    var s := (("::1111:2" + "222:3333") + ":4444:55") + ("55:6666:" + ":");
    assert !Sep(s, 31, 6, true);
    assert !Run(s, 30, 5, true, 3);
    assert !Run(s, 28, 5, true, 1);
    assert !Sep(s, 26, 5, true);
    assert !Run(s, 25, 4, true, 3);
    assert !Run(s, 23, 4, true, 1);
    assert !Sep(s, 21, 4, true);
    assert !Run(s, 20, 3, true, 3);
    assert !Run(s, 18, 3, true, 1);
    assert !Sep(s, 16, 3, true);
    assert !Run(s, 15, 2, true, 3);
    assert !Run(s, 13, 2, true, 1);
    assert !Sep(s, 11, 2, true);
    assert !Run(s, 10, 1, true, 3);
    assert !Run(s, 8, 1, true, 1);
    assert !Sep(s, 6, 1, true);
    assert !Run(s, 5, 0, true, 3);
    assert !Run(s, 3, 0, true, 1);
  }

  lemma Line60()
    ensures IsIPv6("2::10")
  {
  }

  lemma Line61()
    ensures IsIPv6("ff02::1")
  {
  }

  lemma Line62()
    ensures IsIPv6("fe80::")
  {
  }

  lemma Line63()
    ensures IsIPv6("2002::")
  {
  }

  lemma Line64()
    ensures IsIPv6("2001:db8" + "::")
  {
    var s := "2001:db8" + "::";
    assert Sep(s, 8, 2, false);
    assert Run(s, 6, 1, false, 1);
    assert Run(s, 4, 0, false, 4);
    assert Run(s, 1, 0, false, 1);
  }

  lemma Line65()
    ensures IsIPv6("2001:0db" + "8:1234::")
  {
    var s := "2001:0db" + "8:1234::";
    assert Sep(s, 14, 3, false);
    assert Run(s, 12, 2, false, 2);
    assert Sep(s, 9, 2, false);
    assert Run(s, 7, 1, false, 2);
    assert Sep(s, 4, 1, false);
    assert Run(s, 2, 0, false, 2);
    assert Run(s, 1, 0, false, 1);
  }

  lemma Line66()
    ensures IsIPv6("::ffff:0" + ":0")
  {
    var s := "::ffff:0" + ":0";
    assert Sep(s, 10, 3, true);
    assert Sep(s, 8, 2, true);
    assert Sep(s, 6, 1, true);
    assert Run(s, 4, 0, true, 2);
    assert Run(s, 3, 0, true, 1);
  }

  lemma Line67()
    ensures IsIPv6("::1")
  {
  }

  lemma Line68()
    ensures IsIPv6("1:2:3:4:" + "5:6:7:8")
  {
    var s := "1:2:3:4:" + "5:6:7:8";
    assert Sep(s, 15, 8, false);
    assert Sep(s, 13, 7, false);
    assert Sep(s, 11, 6, false);
    assert Sep(s, 9, 5, false);
    assert Sep(s, 7, 4, false);
    assert Sep(s, 5, 3, false);
    assert Sep(s, 3, 2, false);
    assert Sep(s, 1, 1, false);
    assert Run(s, 1, 0, false, 1);
  }

  lemma Line69()
    ensures IsIPv6("1:2:3:4:" + "5:6::8")
  {
    var s := "1:2:3:4:" + "5:6::8";
    assert Sep(s, 14, 7, true);
    assert Sep(s, 11, 6, false);
    assert Sep(s, 9, 5, false);
    assert Sep(s, 7, 4, false);
    assert Sep(s, 5, 3, false);
    assert Sep(s, 3, 2, false);
    assert Sep(s, 1, 1, false);
    assert Run(s, 1, 0, false, 1);
  }

  lemma Line70()
    ensures IsIPv6("1:2:3:4:" + "5::8")
  {
    var s := "1:2:3:4:" + "5::8";
    assert Sep(s, 12, 6, true);
    assert Sep(s, 9, 5, false);
    assert Sep(s, 7, 4, false);
    assert Sep(s, 5, 3, false);
    assert Sep(s, 3, 2, false);
    assert Sep(s, 1, 1, false);
    assert Run(s, 1, 0, false, 1);
  }

  lemma Line71()
    ensures IsIPv6("1:2:3:4:" + ":8")
  {
    var s := "1:2:3:4:" + ":8";
    assert Sep(s, 10, 5, true);
    assert Sep(s, 7, 4, false);
    assert Sep(s, 5, 3, false);
    assert Sep(s, 3, 2, false);
    assert Sep(s, 1, 1, false);
    assert Run(s, 1, 0, false, 1);
  }

  lemma Line72()
    ensures IsIPv6("1:2:3::8")
  {
  }

  lemma Line73()
    ensures IsIPv6("1:2::8")
  {
  }

  lemma Line74()
    ensures IsIPv6("1::8")
  {
  }

  lemma Line75()
    ensures IsIPv6("1::2:3:4" + ":5:6:7")
  {
    var s := "1::2:3:4" + ":5:6:7";
    assert Sep(s, 14, 7, true);
    assert Sep(s, 12, 6, true);
    assert Sep(s, 10, 5, true);
    assert Sep(s, 8, 4, true);
    assert Sep(s, 6, 3, true);
    assert Sep(s, 4, 2, true);
    assert Sep(s, 1, 1, false);
    assert Run(s, 1, 0, false, 1);
  }

  lemma Line76()
    ensures IsIPv6("1::2:3:4" + ":5:6")
  {
    var s := "1::2:3:4" + ":5:6";
    assert Sep(s, 12, 6, true);
    assert Sep(s, 10, 5, true);
    assert Sep(s, 8, 4, true);
    assert Sep(s, 6, 3, true);
    assert Sep(s, 4, 2, true);
    assert Sep(s, 1, 1, false);
    assert Run(s, 1, 0, false, 1);
  }

  lemma Line77()
    ensures IsIPv6("1::2:3:4" + ":5")
  {
    var s := "1::2:3:4" + ":5";
    assert Sep(s, 10, 5, true);
    assert Sep(s, 8, 4, true);
    assert Sep(s, 6, 3, true);
    assert Sep(s, 4, 2, true);
    assert Sep(s, 1, 1, false);
    assert Run(s, 1, 0, false, 1);
  }

  lemma Line78()
    ensures IsIPv6("1::2:3:4")
  {
  }

  lemma Line79()
    ensures IsIPv6("1::2:3")
  {
  }

  lemma Line80()
    ensures IsIPv6("1::8")
  {
  }

  lemma Line81()
    ensures IsIPv6("::2:3:4:" + "5:6:7:8")
  {
    var s := "::2:3:4:" + "5:6:7:8";
    assert Sep(s, 15, 7, true);
    assert Sep(s, 13, 6, true);
    assert Sep(s, 11, 5, true);
    assert Sep(s, 9, 4, true);
    assert Sep(s, 7, 3, true);
    assert Sep(s, 5, 2, true);
    assert Sep(s, 3, 1, true);
    assert Run(s, 3, 0, true, 1);
  }

  lemma Line82()
    ensures IsIPv6("::2:3:4:" + "5:6:7")
  {
    var s := "::2:3:4:" + "5:6:7";
    assert Sep(s, 13, 6, true);
    assert Sep(s, 11, 5, true);
    assert Sep(s, 9, 4, true);
    assert Sep(s, 7, 3, true);
    assert Sep(s, 5, 2, true);
    assert Sep(s, 3, 1, true);
    assert Run(s, 3, 0, true, 1);
  }

  lemma Line83()
    ensures IsIPv6("::2:3:4:" + "5:6")
  {
    var s := "::2:3:4:" + "5:6";
    assert Sep(s, 11, 5, true);
    assert Sep(s, 9, 4, true);
    assert Sep(s, 7, 3, true);
    assert Sep(s, 5, 2, true);
    assert Sep(s, 3, 1, true);
    assert Run(s, 3, 0, true, 1);
  }

  lemma Line84()
    ensures IsIPv6("::2:3:4:" + "5")
  {
    var s := "::2:3:4:" + "5";
    assert Sep(s, 9, 4, true);
    assert Sep(s, 7, 3, true);
    assert Sep(s, 5, 2, true);
    assert Sep(s, 3, 1, true);
    assert Run(s, 3, 0, true, 1);
  }

  lemma Line85()
    ensures IsIPv6("::2:3:4")
  {
  }

  lemma Line86()
    ensures IsIPv6("::2:3")
  {
  }

  lemma Line87()
    ensures IsIPv6("::8")
  {
  }

  lemma Line88()
    ensures IsIPv6("1:2:3:4:" + "5:6::")
  {
    var s := "1:2:3:4:" + "5:6::";
    assert Sep(s, 11, 6, false);
    assert Sep(s, 9, 5, false);
    assert Sep(s, 7, 4, false);
    assert Sep(s, 5, 3, false);
    assert Sep(s, 3, 2, false);
    assert Sep(s, 1, 1, false);
    assert Run(s, 1, 0, false, 1);
  }

  lemma Line89()
    ensures IsIPv6("1:2:3:4:" + "5::")
  {
    var s := "1:2:3:4:" + "5::";
    assert Sep(s, 9, 5, false);
    assert Sep(s, 7, 4, false);
    assert Sep(s, 5, 3, false);
    assert Sep(s, 3, 2, false);
    assert Sep(s, 1, 1, false);
    assert Run(s, 1, 0, false, 1);
  }

  lemma Line90()
    ensures IsIPv6("1:2:3:4:" + ":")
  {
    var s := "1:2:3:4:" + ":";
    assert Sep(s, 7, 4, false);
    assert Sep(s, 5, 3, false);
    assert Sep(s, 3, 2, false);
    assert Sep(s, 1, 1, false);
    assert Run(s, 1, 0, false, 1);
  }

  lemma Line91()
    ensures IsIPv6("1:2:3::")
  {
  }

  lemma Line92()
    ensures IsIPv6("1:2::")
  {
  }

  lemma Line93()
    ensures IsIPv6("1::")
  {
  }

  lemma Line94()
    ensures IsIPv6("1:2:3:4:" + "5::7:8")
  {
    var s := "1:2:3:4:" + "5::7:8";
    assert Sep(s, 14, 7, true);
    assert Sep(s, 12, 6, true);
    assert Sep(s, 9, 5, false);
    assert Sep(s, 7, 4, false);
    assert Sep(s, 5, 3, false);
    assert Sep(s, 3, 2, false);
    assert Sep(s, 1, 1, false);
    assert Run(s, 1, 0, false, 1);
  }

  lemma Line95()
    ensures !IsIPv6("1:2:3::4" + ":5::7:8")
  {
    var s := "1:2:3::4" + ":5::7:8";
    assert !Sep(s, 10, 5, true);
    assert !Run(s, 9, 4, true, 0);
    assert !Run(s, 8, 3, true, 1);
    assert !Sep(s, 5, 3, false);
    assert !Run(s, 4, 2, false, 0);
    assert !Run(s, 3, 1, false, 1);
    assert !Sep(s, 1, 1, false);
    assert !Run(s, 1, 0, false, 1);
  }

  lemma Line96()
    ensures !IsIPv6("12345::6" + ":7:8")
  {
    var s := "12345::6" + ":7:8";
    assert !Run(s, 4, 0, false, 4);
    assert !Run(s, 2, 0, false, 2);
    assert !Run(s, 1, 0, false, 1);
  }

  lemma Line97()
    ensures IsIPv6("1:2:3:4:" + ":7:8")
  {
    var s := "1:2:3:4:" + ":7:8";
    assert Sep(s, 12, 6, true);
    assert Sep(s, 10, 5, true);
    assert Sep(s, 7, 4, false);
    assert Sep(s, 5, 3, false);
    assert Sep(s, 3, 2, false);
    assert Sep(s, 1, 1, false);
    assert Run(s, 1, 0, false, 1);
  }

  lemma Line98()
    ensures IsIPv6("1:2:3::7" + ":8")
  {
    var s := "1:2:3::7" + ":8";
    assert Sep(s, 10, 5, true);
    assert Sep(s, 8, 4, true);
    assert Sep(s, 5, 3, false);
    assert Sep(s, 3, 2, false);
    assert Sep(s, 1, 1, false);
    assert Run(s, 1, 0, false, 1);
  }

  lemma Line99()
    ensures IsIPv6("1:2::7:8")
  {
  }

  lemma Line100()
    ensures IsIPv6("1::7:8")
  {
  }

  lemma Line102()
    ensures IsIPv6(("1:2:3:4:" + "5:6:1.2.") + "3.4")
  {
    var s := ("1:2:3:4:" + "5:6:1.2.") + "3.4";
    assert Octet(s, 19, 3, 1, 4);
    assert Octet(s, 16, 2, 0, 0);
    assert Octet(s, 13, 0, 1, 1);
    assert Run(s, 12, 6, false, 0);
    assert Run(s, 10, 5, false, 0);
    assert Run(s, 8, 4, false, 0);
    assert Run(s, 6, 3, false, 0);
    assert Run(s, 4, 2, false, 0);
    assert Run(s, 2, 1, false, 0);
    assert Run(s, 1, 0, false, 1);
  }

  lemma Line103()
    ensures !IsIPv6(("1:2:3:4:" + "5:6:991.") + "2.3.4")
  {
    var s := ("1:2:3:4:" + "5:6:991.") + "2.3.4";
    assert !Octet(s, 14, 0, 2, 99);
    assert !Octet(s, 12, 0, 0, 0);
    assert !Run(s, 14, 6, false, 2);
    assert !Run(s, 12, 6, false, 0);
    assert !Run(s, 11, 5, false, 1);
    assert !Sep(s, 9, 5, false);
    assert !Run(s, 8, 4, false, 0);
    assert !Run(s, 7, 3, false, 1);
    assert !Sep(s, 5, 3, false);
    assert !Run(s, 4, 2, false, 0);
    assert !Run(s, 3, 1, false, 1);
    assert !Sep(s, 1, 1, false);
    assert !Run(s, 1, 0, false, 1);
  }

  lemma Line104()
    ensures !IsIPv6(("1:2:3:4:" + "5:6:256.") + "2.3.4")
  {
    var s := ("1:2:3:4:" + "5:6:256.") + "2.3.4";
    assert !Octet(s, 14, 0, 2, 25);
    assert !Octet(s, 12, 0, 0, 0);
    assert !Run(s, 14, 6, false, 2);
    assert !Run(s, 12, 6, false, 0);
    assert !Run(s, 11, 5, false, 1);
    assert !Sep(s, 9, 5, false);
    assert !Run(s, 8, 4, false, 0);
    assert !Run(s, 7, 3, false, 1);
    assert !Sep(s, 5, 3, false);
    assert !Run(s, 4, 2, false, 0);
    assert !Run(s, 3, 1, false, 1);
    assert !Sep(s, 1, 1, false);
    assert !Run(s, 1, 0, false, 1);
  }

  lemma Line105()
    ensures IsIPv6(("1:2:3:4:" + "5:6:255.") + ("255.255." + "255"))
  {
    var s := ("1:2:3:4:" + "5:6:255.") + ("255.255." + "255");
    assert Octet(s, 27, 3, 3, 255);
    assert Octet(s, 24, 3, 0, 0);
    assert Octet(s, 21, 2, 1, 2);
    assert Octet(s, 18, 1, 2, 25);
    assert Octet(s, 15, 0, 3, 255);
    assert Octet(s, 12, 0, 0, 0);
    assert Run(s, 13, 6, false, 1);
    assert Run(s, 11, 5, false, 1);
    assert Run(s, 9, 4, false, 1);
    assert Run(s, 7, 3, false, 1);
    assert Run(s, 5, 2, false, 1);
    assert Run(s, 3, 1, false, 1);
    assert Run(s, 1, 0, false, 1);
  }

  lemma Line106()
    ensures !IsIPv6(("0:2:3:4:" + "5:6:255.") + ("255.275." + "255"))
  {
    var s := ("0:2:3:4:" + "5:6:255.") + ("255.275." + "255");
    assert !Octet(s, 22, 2, 2, 27);
    assert !Octet(s, 20, 2, 0, 0);
    assert !Octet(s, 18, 1, 2, 25);
    assert !Octet(s, 16, 1, 0, 0);
    assert !Octet(s, 14, 0, 2, 25);
    assert !Octet(s, 12, 0, 0, 0);
    assert !Run(s, 14, 6, false, 2);
    assert !Run(s, 12, 6, false, 0);
    assert !Run(s, 11, 5, false, 1);
    assert !Sep(s, 9, 5, false);
    assert !Run(s, 8, 4, false, 0);
    assert !Run(s, 7, 3, false, 1);
    assert !Sep(s, 5, 3, false);
    assert !Run(s, 4, 2, false, 0);
    assert !Run(s, 3, 1, false, 1);
    assert !Sep(s, 1, 1, false);
    assert !Run(s, 1, 0, false, 1);
  }

  lemma Line107()
    ensures IsIPv6(("1:2:3:4:" + "5::1.2.3") + ".4")
  {
    var s := ("1:2:3:4:" + "5::1.2.3") + ".4";
    assert Octet(s, 18, 3, 1, 4);
    assert Octet(s, 15, 2, 0, 0);
    assert Octet(s, 12, 0, 1, 1);
    assert Run(s, 11, 5, true, 0);
    assert Run(s, 8, 4, false, 0);
    assert Run(s, 6, 3, false, 0);
    assert Run(s, 4, 2, false, 0);
    assert Run(s, 2, 1, false, 0);
    assert Run(s, 1, 0, false, 1);
  }

  lemma Line108()
    ensures !IsIPv6(("1:2:3:4:" + "5::1.882") + ".3.4")
  {
    var s := ("1:2:3:4:" + "5::1.882") + ".3.4";
    assert !Octet(s, 15, 1, 2, 88);
    assert !Octet(s, 13, 1, 0, 0);
    assert !Octet(s, 11, 0, 0, 0);
    assert !Run(s, 11, 5, true, 0);
    assert !Run(s, 9, 4, false, 1);
    assert !Sep(s, 7, 4, false);
    assert !Run(s, 6, 3, false, 0);
    assert !Run(s, 5, 2, false, 1);
    assert !Sep(s, 3, 2, false);
    assert !Run(s, 2, 1, false, 0);
    assert !Run(s, 1, 0, false, 1);
  }

  lemma Line109()
    ensures IsIPv6("1:2:3:4:" + ":1.2.3.4")
  {
    var s := "1:2:3:4:" + ":1.2.3.4";
    assert Octet(s, 16, 3, 1, 4);
    assert Octet(s, 13, 2, 0, 0);
    assert Octet(s, 10, 0, 1, 1);
    assert Run(s, 9, 4, true, 0);
    assert Run(s, 6, 3, false, 0);
    assert Run(s, 4, 2, false, 0);
    assert Run(s, 2, 1, false, 0);
    assert Run(s, 1, 0, false, 1);
  }

  lemma Line110()
    ensures !IsIPv6(("1:2:3:4:" + ":1.912.3") + ".4")
  {
    var s := ("1:2:3:4:" + ":1.912.3") + ".4";
    assert !Octet(s, 13, 1, 2, 91);
    assert !Octet(s, 11, 1, 0, 0);
    assert !Octet(s, 9, 0, 0, 0);
    assert !Run(s, 9, 4, true, 0);
    assert !Run(s, 7, 3, false, 1);
    assert !Sep(s, 5, 3, false);
    assert !Run(s, 4, 2, false, 0);
    assert !Run(s, 3, 1, false, 1);
    assert !Sep(s, 1, 1, false);
    assert !Run(s, 1, 0, false, 1);
  }

  lemma Line111()
    ensures IsIPv6("1:2:3::1" + ".2.3.4")
  {
    var s := "1:2:3::1" + ".2.3.4";
    assert Octet(s, 14, 3, 1, 4);
    assert Octet(s, 11, 2, 0, 0);
    assert Octet(s, 8, 0, 1, 1);
    assert Run(s, 7, 3, true, 0);
    assert Run(s, 4, 2, false, 0);
    assert Run(s, 2, 1, false, 0);
    assert Run(s, 1, 0, false, 1);
  }

  lemma Line112()
    ensures !IsIPv6("1:2:3::1" + ".2.823.4")
  {
    var s := "1:2:3::1" + ".2.823.4";
    assert !Octet(s, 13, 2, 2, 82);
    assert !Octet(s, 11, 2, 0, 0);
    assert !Octet(s, 9, 1, 0, 0);
    assert !Octet(s, 7, 0, 0, 0);
    assert !Run(s, 7, 3, true, 0);
    assert !Run(s, 5, 2, false, 1);
    assert !Sep(s, 3, 2, false);
    assert !Run(s, 2, 1, false, 0);
    assert !Run(s, 1, 0, false, 1);
  }

  lemma Line113()
    ensures IsIPv6("1:2::1.2" + ".3.4")
  {
    var s := "1:2::1.2" + ".3.4";
    assert Octet(s, 12, 3, 1, 4);
    assert Octet(s, 9, 2, 0, 0);
    assert Octet(s, 6, 0, 1, 1);
    assert Run(s, 5, 2, true, 0);
    assert Run(s, 2, 1, false, 0);
    assert Run(s, 1, 0, false, 1);
  }

  lemma Line114()
    ensures !IsIPv6("1:2::1.3" + "12.3.4")
  {
    var s := "1:2::1.3" + "12.3.4";
    assert !Octet(s, 9, 1, 2, 31);
    assert !Octet(s, 7, 1, 0, 0);
    assert !Octet(s, 5, 0, 0, 0);
    assert !Run(s, 5, 2, true, 0);
    assert !Run(s, 3, 1, false, 1);
    assert !Sep(s, 1, 1, false);
    assert !Run(s, 1, 0, false, 1);
  }

  lemma Line115()
    ensures IsIPv6("1::1.2.3" + ".4")
  {
    var s := "1::1.2.3" + ".4";
    assert Octet(s, 10, 3, 1, 4);
    assert Octet(s, 7, 2, 0, 0);
    assert Octet(s, 4, 0, 1, 1);
    assert Run(s, 3, 1, true, 0);
    assert Run(s, 1, 0, false, 1);
  }

  lemma Line116()
    ensures !IsIPv6("1::411.2" + ".3.4")
  {
    var s := "1::411.2" + ".3.4";
    assert !Octet(s, 5, 0, 2, 41);
    assert !Octet(s, 3, 0, 0, 0);
    assert !Run(s, 5, 1, true, 2);
    assert !Run(s, 3, 1, true, 0);
    assert !Run(s, 1, 0, false, 1);
  }

  lemma Line117()
    ensures IsIPv6(("1:2:3:4:" + ":5:1.2.3") + ".4")
  {
    var s := ("1:2:3:4:" + ":5:1.2.3") + ".4";
    assert Octet(s, 18, 3, 1, 4);
    assert Octet(s, 15, 2, 0, 0);
    assert Octet(s, 12, 0, 1, 1);
    assert Run(s, 11, 5, true, 0);
    assert Run(s, 9, 4, true, 0);
    assert Run(s, 6, 3, false, 0);
    assert Run(s, 4, 2, false, 0);
    assert Run(s, 2, 1, false, 0);
    assert Run(s, 1, 0, false, 1);
  }

  lemma Line118()
    ensures !IsIPv6(("1:2:3:4:" + ":5:791.2") + ".3.4")
  {
    var s := ("1:2:3:4:" + ":5:791.2") + ".3.4";
    assert !Octet(s, 13, 0, 2, 79);
    assert !Octet(s, 11, 0, 0, 0);
    assert !Run(s, 13, 5, true, 2);
    assert !Run(s, 11, 5, true, 0);
    assert !Run(s, 10, 4, true, 1);
    assert !Sep(s, 7, 4, false);
    assert !Run(s, 6, 3, false, 0);
    assert !Run(s, 5, 2, false, 1);
    assert !Sep(s, 3, 2, false);
    assert !Run(s, 2, 1, false, 0);
    assert !Run(s, 1, 0, false, 1);
  }

  lemma Line119()
    ensures IsIPv6("1:2:3::5" + ":1.2.3.4")
  {
    var s := "1:2:3::5" + ":1.2.3.4";
    assert Octet(s, 16, 3, 1, 4);
    assert Octet(s, 13, 2, 0, 0);
    assert Octet(s, 10, 0, 1, 1);
    assert Run(s, 9, 4, true, 0);
    assert Run(s, 7, 3, true, 0);
    assert Run(s, 4, 2, false, 0);
    assert Run(s, 2, 1, false, 0);
    assert Run(s, 1, 0, false, 1);
  }

  lemma Line120()
    ensures !IsIPv6(("1:2:3::5" + ":681.2.3") + ".4")
  {
    var s := ("1:2:3::5" + ":681.2.3") + ".4";
    assert !Octet(s, 11, 0, 2, 68);
    assert !Octet(s, 9, 0, 0, 0);
    assert !Run(s, 11, 4, true, 2);
    assert !Run(s, 9, 4, true, 0);
    assert !Run(s, 8, 3, true, 1);
    assert !Sep(s, 5, 3, false);
    assert !Run(s, 4, 2, false, 0);
    assert !Run(s, 3, 1, false, 1);
    assert !Sep(s, 1, 1, false);
    assert !Run(s, 1, 0, false, 1);
  }

  lemma Line121()
    ensures !IsIPv6(("1:2:3::5" + ":1.2.3.1") + "004")
  {
    var s := ("1:2:3::5" + ":1.2.3.1") + "004";
    assert !Octet(s, 18, 3, 3, 100);
    assert !Octet(s, 16, 3, 1, 1);
    assert !Octet(s, 14, 2, 1, 3);
    assert !Octet(s, 12, 1, 1, 2);
    assert !Octet(s, 10, 0, 1, 1);
    assert !Run(s, 10, 4, true, 1);
    assert !Sep(s, 8, 4, true);
    assert !Run(s, 7, 3, true, 0);
    assert !Run(s, 5, 2, false, 1);
    assert !Sep(s, 3, 2, false);
    assert !Run(s, 2, 1, false, 0);
    assert !Run(s, 1, 0, false, 1);
  }

  lemma Line122()
    ensures IsIPv6("1:2::5:1" + ".2.3.4")
  {
    var s := "1:2::5:1" + ".2.3.4";
    assert Octet(s, 14, 3, 1, 4);
    assert Octet(s, 11, 2, 0, 0);
    assert Octet(s, 8, 0, 1, 1);
    assert Run(s, 7, 3, true, 0);
    assert Run(s, 5, 2, true, 0);
    assert Run(s, 2, 1, false, 0);
    assert Run(s, 1, 0, false, 1);
  }

  lemma Line123()
    ensures !IsIPv6("1:2::5:1" + ".312.3.4")
  {
    var s := "1:2::5:1" + ".312.3.4";
    assert !Octet(s, 11, 1, 2, 31);
    assert !Octet(s, 9, 1, 0, 0);
    assert !Octet(s, 7, 0, 0, 0);
    assert !Run(s, 7, 3, true, 0);
    assert !Run(s, 6, 2, true, 1);
    assert !Sep(s, 3, 2, false);
    assert !Run(s, 2, 1, false, 0);
    assert !Run(s, 1, 0, false, 1);
  }

  lemma Line124()
    ensures IsIPv6("1::5:1.2" + ".3.4")
  {
    var s := "1::5:1.2" + ".3.4";
    assert Octet(s, 12, 3, 1, 4);
    assert Octet(s, 9, 2, 0, 0);
    assert Octet(s, 6, 0, 1, 1);
    assert Run(s, 5, 2, true, 0);
    assert Run(s, 3, 1, true, 0);
    assert Run(s, 1, 0, false, 1);
  }

  lemma Line125()
    ensures !IsIPv6("1::5:1.5" + "52.3.4")
  {
    var s := "1::5:1.5" + "52.3.4";
    assert !Octet(s, 9, 1, 2, 55);
    assert !Octet(s, 7, 1, 0, 0);
    assert !Octet(s, 5, 0, 0, 0);
    assert !Run(s, 5, 2, true, 0);
    assert !Run(s, 4, 1, true, 1);
    assert !Sep(s, 1, 1, false);
    assert !Run(s, 1, 0, false, 1);
  }

  lemma Line126()
    ensures IsIPv6("1::5:11." + "22.33.44")
  {
    var s := "1::5:11." + "22.33.44";
    assert Octet(s, 16, 3, 2, 44);
    assert Octet(s, 13, 2, 2, 33);
    assert Octet(s, 10, 1, 2, 22);
    assert Octet(s, 7, 0, 2, 11);
    assert Run(s, 7, 2, true, 2);
    assert Sep(s, 4, 2, true);
    assert Sep(s, 1, 1, false);
    assert Run(s, 1, 0, false, 1);
  }

  lemma Line127()
    ensures !IsIPv6(("1::5:11." + "322.33.4") + "4")
  {
    var s := ("1::5:11." + "322.33.4") + "4";
    assert !Octet(s, 10, 1, 2, 32);
    assert !Octet(s, 8, 1, 0, 0);
    assert !Octet(s, 6, 0, 1, 1);
    assert !Run(s, 7, 2, true, 2);
    assert !Run(s, 5, 2, true, 0);
    assert !Run(s, 4, 1, true, 1);
    assert !Sep(s, 1, 1, false);
    assert !Run(s, 1, 0, false, 1);
  }

  lemma Line128()
    ensures !IsIPv6("1::5:400" + ".2.3.4")
  {
    var s := "1::5:400" + ".2.3.4";
    assert !Octet(s, 7, 0, 2, 40);
    assert !Octet(s, 5, 0, 0, 0);
    assert !Run(s, 7, 2, true, 2);
    assert !Run(s, 5, 2, true, 0);
    assert !Run(s, 4, 1, true, 1);
    assert !Sep(s, 1, 1, false);
    assert !Run(s, 1, 0, false, 1);
  }

  lemma Line129()
    ensures !IsIPv6("1::5:260" + ".2.3.4")
  {
    var s := "1::5:260" + ".2.3.4";
    assert !Octet(s, 7, 0, 2, 26);
    assert !Octet(s, 5, 0, 0, 0);
    assert !Run(s, 7, 2, true, 2);
    assert !Run(s, 5, 2, true, 0);
    assert !Run(s, 4, 1, true, 1);
    assert !Sep(s, 1, 1, false);
    assert !Run(s, 1, 0, false, 1);
  }

  lemma Line130()
    ensures !IsIPv6("1::5:256" + ".2.3.4")
  {
    var s := "1::5:256" + ".2.3.4";
    assert !Octet(s, 7, 0, 2, 25);
    assert !Octet(s, 5, 0, 0, 0);
    assert !Run(s, 7, 2, true, 2);
    assert !Run(s, 5, 2, true, 0);
    assert !Run(s, 4, 1, true, 1);
    assert !Sep(s, 1, 1, false);
    assert !Run(s, 1, 0, false, 1);
  }

  lemma Line131()
    ensures !IsIPv6("1::5:1.2" + "56.3.4")
  {
    var s := "1::5:1.2" + "56.3.4";
    assert !Octet(s, 9, 1, 2, 25);
    assert !Octet(s, 7, 1, 0, 0);
    assert !Octet(s, 5, 0, 0, 0);
    assert !Run(s, 5, 2, true, 0);
    assert !Run(s, 4, 1, true, 1);
    assert !Sep(s, 1, 1, false);
    assert !Run(s, 1, 0, false, 1);
  }

  lemma Line132()
    ensures !IsIPv6("1::5:1.2" + ".256.4")
  {
    var s := "1::5:1.2" + ".256.4";
    assert !Octet(s, 11, 2, 2, 25);
    assert !Octet(s, 9, 2, 0, 0);
    assert !Octet(s, 7, 1, 0, 0);
    assert !Octet(s, 5, 0, 0, 0);
    assert !Run(s, 5, 2, true, 0);
    assert !Run(s, 4, 1, true, 1);
    assert !Sep(s, 1, 1, false);
    assert !Run(s, 1, 0, false, 1);
  }

  lemma Line133()
    ensures !IsIPv6("1::5:1.2" + ".3.256")
  {
    var s := "1::5:1.2" + ".3.256";
    assert !Octet(s, 13, 3, 2, 25);
    assert !Octet(s, 11, 3, 0, 0);
    assert !Octet(s, 9, 2, 0, 0);
    assert !Octet(s, 7, 1, 0, 0);
    assert !Octet(s, 5, 0, 0, 0);
    assert !Run(s, 5, 2, true, 0);
    assert !Run(s, 4, 1, true, 1);
    assert !Sep(s, 1, 1, false);
    assert !Run(s, 1, 0, false, 1);
  }

  lemma Line134()
    ensures !IsIPv6("1::5:300" + ".2.3.4")
  {
    var s := "1::5:300" + ".2.3.4";
    assert !Octet(s, 7, 0, 2, 30);
    assert !Octet(s, 5, 0, 0, 0);
    assert !Run(s, 7, 2, true, 2);
    assert !Run(s, 5, 2, true, 0);
    assert !Run(s, 4, 1, true, 1);
    assert !Sep(s, 1, 1, false);
    assert !Run(s, 1, 0, false, 1);
  }

  lemma Line135()
    ensures !IsIPv6("1::5:1.3" + "00.3.4")
  {
    var s := "1::5:1.3" + "00.3.4";
    assert !Octet(s, 9, 1, 2, 30);
    assert !Octet(s, 7, 1, 0, 0);
    assert !Octet(s, 5, 0, 0, 0);
    assert !Run(s, 5, 2, true, 0);
    assert !Run(s, 4, 1, true, 1);
    assert !Sep(s, 1, 1, false);
    assert !Run(s, 1, 0, false, 1);
  }

  lemma Line136()
    ensures !IsIPv6("1::5:1.2" + ".300.4")
  {
    var s := "1::5:1.2" + ".300.4";
    assert !Octet(s, 11, 2, 2, 30);
    assert !Octet(s, 9, 2, 0, 0);
    assert !Octet(s, 7, 1, 0, 0);
    assert !Octet(s, 5, 0, 0, 0);
    assert !Run(s, 5, 2, true, 0);
    assert !Run(s, 4, 1, true, 1);
    assert !Sep(s, 1, 1, false);
    assert !Run(s, 1, 0, false, 1);
  }

  lemma Line137()
    ensures !IsIPv6("1::5:1.2" + ".3.300")
  {
    var s := "1::5:1.2" + ".3.300";
    assert !Octet(s, 13, 3, 2, 30);
    assert !Octet(s, 11, 3, 0, 0);
    assert !Octet(s, 9, 2, 0, 0);
    assert !Octet(s, 7, 1, 0, 0);
    assert !Octet(s, 5, 0, 0, 0);
    assert !Run(s, 5, 2, true, 0);
    assert !Run(s, 4, 1, true, 1);
    assert !Sep(s, 1, 1, false);
    assert !Run(s, 1, 0, false, 1);
  }

  lemma Line138()
    ensures !IsIPv6("1::5:900" + ".2.3.4")
  {
    var s := "1::5:900" + ".2.3.4";
    assert !Octet(s, 7, 0, 2, 90);
    assert !Octet(s, 5, 0, 0, 0);
    assert !Run(s, 7, 2, true, 2);
    assert !Run(s, 5, 2, true, 0);
    assert !Run(s, 4, 1, true, 1);
    assert !Sep(s, 1, 1, false);
    assert !Run(s, 1, 0, false, 1);
  }

  lemma Line139()
    ensures !IsIPv6("1::5:1.9" + "00.3.4")
  {
    var s := "1::5:1.9" + "00.3.4";
    assert !Octet(s, 9, 1, 2, 90);
    assert !Octet(s, 7, 1, 0, 0);
    assert !Octet(s, 5, 0, 0, 0);
    assert !Run(s, 5, 2, true, 0);
    assert !Run(s, 4, 1, true, 1);
    assert !Sep(s, 1, 1, false);
    assert !Run(s, 1, 0, false, 1);
  }

  lemma Line140()
    ensures !IsIPv6("1::5:1.2" + ".900.4")
  {
    var s := "1::5:1.2" + ".900.4";
    assert !Octet(s, 11, 2, 2, 90);
    assert !Octet(s, 9, 2, 0, 0);
    assert !Octet(s, 7, 1, 0, 0);
    assert !Octet(s, 5, 0, 0, 0);
    assert !Run(s, 5, 2, true, 0);
    assert !Run(s, 4, 1, true, 1);
    assert !Sep(s, 1, 1, false);
    assert !Run(s, 1, 0, false, 1);
  }

  lemma Line141()
    ensures !IsIPv6("1::5:1.2" + ".3.900")
  {
    var s := "1::5:1.2" + ".3.900";
    assert !Octet(s, 13, 3, 2, 90);
    assert !Octet(s, 11, 3, 0, 0);
    assert !Octet(s, 9, 2, 0, 0);
    assert !Octet(s, 7, 1, 0, 0);
    assert !Octet(s, 5, 0, 0, 0);
    assert !Run(s, 5, 2, true, 0);
    assert !Run(s, 4, 1, true, 1);
    assert !Sep(s, 1, 1, false);
    assert !Run(s, 1, 0, false, 1);
  }

  lemma Line142()
    ensures !IsIPv6(("1::5:300" + ".300.300") + ".300")
  {
    var s := ("1::5:300" + ".300.300") + ".300";
    assert !Octet(s, 7, 0, 2, 30);
    assert !Octet(s, 5, 0, 0, 0);
    assert !Run(s, 7, 2, true, 2);
    assert !Run(s, 5, 2, true, 0);
    assert !Run(s, 4, 1, true, 1);
    assert !Sep(s, 1, 1, false);
    assert !Run(s, 1, 0, false, 1);
  }

  lemma Line143()
    ensures !IsIPv6(("1::5:300" + "0.30.30.") + "30")
  {
    var s := ("1::5:300" + "0.30.30.") + "30";
    assert !Octet(s, 7, 0, 2, 30);
    assert !Octet(s, 5, 0, 0, 0);
    assert !Run(s, 8, 2, true, 3);
    assert !Run(s, 6, 2, true, 1);
    assert !Sep(s, 4, 2, true);
    assert !Run(s, 3, 1, true, 0);
    assert !Run(s, 1, 0, false, 1);
  }

  lemma Line144()
    ensures !IsIPv6("1::400.2" + ".3.4")
  {
    var s := "1::400.2" + ".3.4";
    assert !Octet(s, 5, 0, 2, 40);
    assert !Octet(s, 3, 0, 0, 0);
    assert !Run(s, 5, 1, true, 2);
    assert !Run(s, 3, 1, true, 0);
    assert !Run(s, 1, 0, false, 1);
  }

  lemma Line145()
    ensures !IsIPv6("1::260.2" + ".3.4")
  {
    var s := "1::260.2" + ".3.4";
    assert !Octet(s, 5, 0, 2, 26);
    assert !Octet(s, 3, 0, 0, 0);
    assert !Run(s, 5, 1, true, 2);
    assert !Run(s, 3, 1, true, 0);
    assert !Run(s, 1, 0, false, 1);
  }

  lemma Line146()
    ensures !IsIPv6("1::256.2" + ".3.4")
  {
    var s := "1::256.2" + ".3.4";
    assert !Octet(s, 5, 0, 2, 25);
    assert !Octet(s, 3, 0, 0, 0);
    assert !Run(s, 5, 1, true, 2);
    assert !Run(s, 3, 1, true, 0);
    assert !Run(s, 1, 0, false, 1);
  }

  lemma Line147()
    ensures !IsIPv6("1::1.256" + ".3.4")
  {
    var s := "1::1.256" + ".3.4";
    assert !Octet(s, 7, 1, 2, 25);
    assert !Octet(s, 5, 1, 0, 0);
    assert !Octet(s, 3, 0, 0, 0);
    assert !Run(s, 3, 1, true, 0);
    assert !Run(s, 1, 0, false, 1);
  }

  lemma Line148()
    ensures !IsIPv6("1::1.2.2" + "56.4")
  {
    var s := "1::1.2.2" + "56.4";
    assert !Octet(s, 9, 2, 2, 25);
    assert !Octet(s, 7, 2, 0, 0);
    assert !Octet(s, 5, 1, 0, 0);
    assert !Octet(s, 3, 0, 0, 0);
    assert !Run(s, 3, 1, true, 0);
    assert !Run(s, 1, 0, false, 1);
  }

  lemma Line149()
    ensures !IsIPv6("1::1.2.3" + ".256")
  {
    var s := "1::1.2.3" + ".256";
    assert !Octet(s, 11, 3, 2, 25);
    assert !Octet(s, 9, 3, 0, 0);
    assert !Octet(s, 7, 2, 0, 0);
    assert !Octet(s, 5, 1, 0, 0);
    assert !Octet(s, 3, 0, 0, 0);
    assert !Run(s, 3, 1, true, 0);
    assert !Run(s, 1, 0, false, 1);
  }

  lemma Line150()
    ensures !IsIPv6("1::300.2" + ".3.4")
  {
    var s := "1::300.2" + ".3.4";
    assert !Octet(s, 5, 0, 2, 30);
    assert !Octet(s, 3, 0, 0, 0);
    assert !Run(s, 5, 1, true, 2);
    assert !Run(s, 3, 1, true, 0);
    assert !Run(s, 1, 0, false, 1);
  }

  lemma Line151()
    ensures !IsIPv6("1::1.300" + ".3.4")
  {
    var s := "1::1.300" + ".3.4";
    assert !Octet(s, 7, 1, 2, 30);
    assert !Octet(s, 5, 1, 0, 0);
    assert !Octet(s, 3, 0, 0, 0);
    assert !Run(s, 3, 1, true, 0);
    assert !Run(s, 1, 0, false, 1);
  }

  lemma Line152()
    ensures !IsIPv6("1::1.2.3" + "00.4")
  {
    var s := "1::1.2.3" + "00.4";
    assert !Octet(s, 9, 2, 2, 30);
    assert !Octet(s, 7, 2, 0, 0);
    assert !Octet(s, 5, 1, 0, 0);
    assert !Octet(s, 3, 0, 0, 0);
    assert !Run(s, 3, 1, true, 0);
    assert !Run(s, 1, 0, false, 1);
  }

  lemma Line153()
    ensures !IsIPv6("1::1.2.3" + ".300")
  {
    var s := "1::1.2.3" + ".300";
    assert !Octet(s, 11, 3, 2, 30);
    assert !Octet(s, 9, 3, 0, 0);
    assert !Octet(s, 7, 2, 0, 0);
    assert !Octet(s, 5, 1, 0, 0);
    assert !Octet(s, 3, 0, 0, 0);
    assert !Run(s, 3, 1, true, 0);
    assert !Run(s, 1, 0, false, 1);
  }

  lemma Line154()
    ensures !IsIPv6("1::900.2" + ".3.4")
  {
    var s := "1::900.2" + ".3.4";
    assert !Octet(s, 5, 0, 2, 90);
    assert !Octet(s, 3, 0, 0, 0);
    assert !Run(s, 5, 1, true, 2);
    assert !Run(s, 3, 1, true, 0);
    assert !Run(s, 1, 0, false, 1);
  }

  lemma Line155()
    ensures !IsIPv6("1::1.900" + ".3.4")
  {
    var s := "1::1.900" + ".3.4";
    assert !Octet(s, 7, 1, 2, 90);
    assert !Octet(s, 5, 1, 0, 0);
    assert !Octet(s, 3, 0, 0, 0);
    assert !Run(s, 3, 1, true, 0);
    assert !Run(s, 1, 0, false, 1);
  }

  lemma Line156()
    ensures !IsIPv6("1::1.2.9" + "00.4")
  {
    var s := "1::1.2.9" + "00.4";
    assert !Octet(s, 9, 2, 2, 90);
    assert !Octet(s, 7, 2, 0, 0);
    assert !Octet(s, 5, 1, 0, 0);
    assert !Octet(s, 3, 0, 0, 0);
    assert !Run(s, 3, 1, true, 0);
    assert !Run(s, 1, 0, false, 1);
  }

  lemma Line157()
    ensures !IsIPv6("1::1.2.3" + ".900")
  {
    var s := "1::1.2.3" + ".900";
    assert !Octet(s, 11, 3, 2, 90);
    assert !Octet(s, 9, 3, 0, 0);
    assert !Octet(s, 7, 2, 0, 0);
    assert !Octet(s, 5, 1, 0, 0);
    assert !Octet(s, 3, 0, 0, 0);
    assert !Run(s, 3, 1, true, 0);
    assert !Run(s, 1, 0, false, 1);
  }

  lemma Line158()
    ensures !IsIPv6(("1::300.3" + "00.300.3") + "00")
  {
    var s := ("1::300.3" + "00.300.3") + "00";
    assert !Octet(s, 5, 0, 2, 30);
    assert !Octet(s, 3, 0, 0, 0);
    assert !Run(s, 5, 1, true, 2);
    assert !Run(s, 3, 1, true, 0);
    assert !Run(s, 1, 0, false, 1);
  }

  lemma Line159()
    ensures !IsIPv6("1::3000." + "30.30.30")
  {
    var s := "1::3000." + "30.30.30";
    assert !Octet(s, 5, 0, 2, 30);
    assert !Octet(s, 3, 0, 0, 0);
    assert !Run(s, 6, 1, true, 3);
    assert !Run(s, 4, 1, true, 1);
    assert !Sep(s, 1, 1, false);
    assert !Run(s, 1, 0, false, 1);
  }

  lemma Line160()
    ensures !IsIPv6("::400.2." + "3.4")
  {
    var s := "::400.2." + "3.4";
    assert !Octet(s, 4, 0, 2, 40);
    assert !Octet(s, 2, 0, 0, 0);
    assert !Run(s, 4, 0, true, 2);
    assert !Run(s, 3, 0, true, 1);
  }

  lemma Line161()
    ensures !IsIPv6("::260.2." + "3.4")
  {
    var s := "::260.2." + "3.4";
    assert !Octet(s, 4, 0, 2, 26);
    assert !Octet(s, 2, 0, 0, 0);
    assert !Run(s, 4, 0, true, 2);
    assert !Run(s, 3, 0, true, 1);
  }

  lemma Line162()
    ensures !IsIPv6("::256.2." + "3.4")
  {
    var s := "::256.2." + "3.4";
    assert !Octet(s, 4, 0, 2, 25);
    assert !Octet(s, 2, 0, 0, 0);
    assert !Run(s, 4, 0, true, 2);
    assert !Run(s, 3, 0, true, 1);
  }

  lemma Line163()
    ensures !IsIPv6("::1.256." + "3.4")
  {
    var s := "::1.256." + "3.4";
    assert !Octet(s, 6, 1, 2, 25);
    assert !Octet(s, 4, 1, 0, 0);
    assert !Octet(s, 2, 0, 0, 0);
    assert !Run(s, 3, 0, true, 1);
  }

  lemma Line164()
    ensures !IsIPv6("::1.2.25" + "6.4")
  {
    var s := "::1.2.25" + "6.4";
    assert !Octet(s, 8, 2, 2, 25);
    assert !Octet(s, 6, 2, 0, 0);
    assert !Octet(s, 4, 1, 0, 0);
    assert !Octet(s, 2, 0, 0, 0);
    assert !Run(s, 3, 0, true, 1);
  }

  lemma Line165()
    ensures !IsIPv6("::1.2.3." + "256")
  {
    var s := "::1.2.3." + "256";
    assert !Octet(s, 10, 3, 2, 25);
    assert !Octet(s, 8, 3, 0, 0);
    assert !Octet(s, 6, 2, 0, 0);
    assert !Octet(s, 4, 1, 0, 0);
    assert !Octet(s, 2, 0, 0, 0);
    assert !Run(s, 3, 0, true, 1);
  }

  lemma Line166()
    ensures !IsIPv6("::300.2." + "3.4")
  {
    var s := "::300.2." + "3.4";
    assert !Octet(s, 4, 0, 2, 30);
    assert !Octet(s, 2, 0, 0, 0);
    assert !Run(s, 4, 0, true, 2);
    assert !Run(s, 3, 0, true, 1);
  }

  lemma Line167()
    ensures !IsIPv6("::1.300." + "3.4")
  {
    var s := "::1.300." + "3.4";
    assert !Octet(s, 6, 1, 2, 30);
    assert !Octet(s, 4, 1, 0, 0);
    assert !Octet(s, 2, 0, 0, 0);
    assert !Run(s, 3, 0, true, 1);
  }

  lemma Line168()
    ensures !IsIPv6("::1.2.30" + "0.4")
  {
    var s := "::1.2.30" + "0.4";
    assert !Octet(s, 8, 2, 2, 30);
    assert !Octet(s, 6, 2, 0, 0);
    assert !Octet(s, 4, 1, 0, 0);
    assert !Octet(s, 2, 0, 0, 0);
    assert !Run(s, 3, 0, true, 1);
  }

  lemma Line169()
    ensures !IsIPv6("::1.2.3." + "300")
  {
    var s := "::1.2.3." + "300";
    assert !Octet(s, 10, 3, 2, 30);
    assert !Octet(s, 8, 3, 0, 0);
    assert !Octet(s, 6, 2, 0, 0);
    assert !Octet(s, 4, 1, 0, 0);
    assert !Octet(s, 2, 0, 0, 0);
    assert !Run(s, 3, 0, true, 1);
  }

  lemma Line170()
    ensures !IsIPv6("::900.2." + "3.4")
  {
    var s := "::900.2." + "3.4";
    assert !Octet(s, 4, 0, 2, 90);
    assert !Octet(s, 2, 0, 0, 0);
    assert !Run(s, 4, 0, true, 2);
    assert !Run(s, 3, 0, true, 1);
  }

  lemma Line171()
    ensures !IsIPv6("::1.900." + "3.4")
  {
    var s := "::1.900." + "3.4";
    assert !Octet(s, 6, 1, 2, 90);
    assert !Octet(s, 4, 1, 0, 0);
    assert !Octet(s, 2, 0, 0, 0);
    assert !Run(s, 3, 0, true, 1);
  }

  lemma Line172()
    ensures !IsIPv6("::1.2.90" + "0.4")
  {
    var s := "::1.2.90" + "0.4";
    assert !Octet(s, 8, 2, 2, 90);
    assert !Octet(s, 6, 2, 0, 0);
    assert !Octet(s, 4, 1, 0, 0);
    assert !Octet(s, 2, 0, 0, 0);
    assert !Run(s, 3, 0, true, 1);
  }

  lemma Line173()
    ensures !IsIPv6("::1.2.3." + "900")
  {
    var s := "::1.2.3." + "900";
    assert !Octet(s, 10, 3, 2, 90);
    assert !Octet(s, 8, 3, 0, 0);
    assert !Octet(s, 6, 2, 0, 0);
    assert !Octet(s, 4, 1, 0, 0);
    assert !Octet(s, 2, 0, 0, 0);
    assert !Run(s, 3, 0, true, 1);
  }

  lemma Line174()
    ensures !IsIPv6(("::300.30" + "0.300.30") + "0")
  {
    var s := ("::300.30" + "0.300.30") + "0";
    assert !Octet(s, 4, 0, 2, 30);
    assert !Octet(s, 2, 0, 0, 0);
    assert !Run(s, 4, 0, true, 2);
    assert !Run(s, 3, 0, true, 1);
  }

  lemma Line175()
    ensures !IsIPv6("::3000.3" + "0.30.30")
  {
    var s := "::3000.3" + "0.30.30";
    assert !Octet(s, 4, 0, 2, 30);
    assert !Octet(s, 2, 0, 0, 0);
    assert !Run(s, 5, 0, true, 3);
    assert !Run(s, 3, 0, true, 1);
  }

  lemma Line176()
    ensures IsIPv6(("fe80::21" + "7:f2ff:2") + ("54.7.237" + ".98"))
  {
    var s := ("fe80::21" + "7:f2ff:2") + ("54.7.237" + ".98");
    assert Octet(s, 27, 3, 2, 98);
    assert Octet(s, 24, 2, 3, 237);
    assert Octet(s, 21, 2, 0, 0);
    assert Octet(s, 18, 0, 3, 254);
    assert Octet(s, 15, 0, 0, 0);
    assert Run(s, 16, 3, true, 1);
    assert Run(s, 14, 2, true, 4);
    assert Run(s, 11, 2, true, 1);
    assert Run(s, 9, 1, true, 3);
    assert Run(s, 6, 1, true, 0);
    assert Run(s, 3, 0, false, 3);
    assert Run(s, 1, 0, false, 1);
  }

  lemma Line177()
    ensures IsIPv6(("::ffff:1" + "92.168.1") + ".26")
  {
    var s := ("::ffff:1" + "92.168.1") + ".26";
    assert Octet(s, 19, 3, 2, 26);
    assert Octet(s, 16, 2, 1, 1);
    assert Octet(s, 13, 1, 2, 16);
    assert Octet(s, 10, 0, 3, 192);
    assert Octet(s, 7, 0, 0, 0);
    assert Run(s, 8, 1, true, 1);
    assert Run(s, 6, 0, true, 4);
    assert Run(s, 3, 0, true, 1);
  }

  lemma Line178()
    ensures !IsIPv6(("2001:1:1" + ":1:1:1:2") + ("55Z255X2" + "55Y255"))
  {
    var s := ("2001:1:1" + ":1:1:1:2") + ("55Z255X2" + "55Y255");
    assert !Sep(s, 18, 7, false);
    assert !Run(s, 17, 6, false, 2);
    assert !Run(s, 15, 6, false, 0);
    assert !Run(s, 14, 5, false, 1);
    assert !Sep(s, 12, 5, false);
    assert !Run(s, 11, 4, false, 0);
    assert !Run(s, 10, 3, false, 1);
    assert !Sep(s, 8, 3, false);
    assert !Run(s, 7, 2, false, 0);
    assert !Run(s, 6, 1, false, 1);
    assert !Sep(s, 4, 1, false);
    assert !Run(s, 3, 0, false, 3);
    assert !Run(s, 1, 0, false, 1);
  }

  lemma Line179()
    ensures !IsIPv6(("::ffff:1" + "92x168.1") + ".26")
  {
    var s := ("::ffff:1" + "92x168.1") + ".26";
    assert !Sep(s, 10, 2, true);
    assert !Run(s, 9, 1, true, 2);
    assert !Run(s, 7, 1, true, 0);
    assert !Run(s, 6, 0, true, 4);
    assert !Run(s, 4, 0, true, 2);
    assert !Run(s, 3, 0, true, 1);
  }

  lemma Line180()
    ensures IsIPv6(("::ffff:1" + "92.168.1") + ".1")
  {
    var s := ("::ffff:1" + "92.168.1") + ".1";
    assert Octet(s, 18, 3, 1, 1);
    assert Octet(s, 15, 2, 0, 0);
    assert Octet(s, 12, 1, 1, 1);
    assert Octet(s, 9, 0, 2, 19);
    assert Run(s, 10, 1, true, 3);
    assert Run(s, 7, 1, true, 0);
    assert Run(s, 5, 0, true, 3);
    assert Run(s, 3, 0, true, 1);
  }

  lemma Line181()
    ensures IsIPv6(("0:0:0:0:" + "0:0:13.1") + ".68.3")
  {
    var s := ("0:0:0:0:" + "0:0:13.1") + ".68.3";
    assert Octet(s, 21, 3, 1, 3);
    assert Octet(s, 18, 2, 1, 6);
    assert Octet(s, 15, 1, 0, 0);
    assert Octet(s, 12, 0, 0, 0);
    assert Run(s, 12, 6, false, 0);
    assert Run(s, 10, 5, false, 0);
    assert Run(s, 8, 4, false, 0);
    assert Run(s, 6, 3, false, 0);
    assert Run(s, 4, 2, false, 0);
    assert Run(s, 2, 1, false, 0);
    assert Run(s, 1, 0, false, 1);
  }

  lemma Line182()
    ensures IsIPv6(("0:0:0:0:" + "0:FFFF:1") + ("29.144.5" + "2.38"))
  {
    var s := ("0:0:0:0:" + "0:FFFF:1") + ("29.144.5" + "2.38");
    assert Octet(s, 28, 3, 2, 38);
    assert Octet(s, 25, 2, 2, 52);
    assert Octet(s, 22, 1, 3, 144);
    assert Octet(s, 19, 1, 0, 0);
    assert Octet(s, 16, 0, 1, 1);
    assert Run(s, 17, 6, false, 2);
    assert Sep(s, 14, 6, false);
    assert Run(s, 12, 5, false, 2);
    assert Sep(s, 9, 5, false);
    assert Sep(s, 7, 4, false);
    assert Sep(s, 5, 3, false);
    assert Sep(s, 3, 2, false);
    assert Sep(s, 1, 1, false);
    assert Run(s, 1, 0, false, 1);
  }

  lemma Line183()
    ensures IsIPv6("::13.1.6" + "8.3")
  {
    var s := "::13.1.6" + "8.3";
    assert Octet(s, 11, 3, 1, 3);
    assert Octet(s, 8, 2, 1, 6);
    assert Octet(s, 5, 1, 0, 0);
    assert Octet(s, 2, 0, 0, 0);
    assert Run(s, 3, 0, true, 1);
  }

  lemma Line184()
    ensures IsIPv6(("::FFFF:1" + "29.144.5") + "2.38")
  {
    var s := ("::FFFF:1" + "29.144.5") + "2.38";
    assert Octet(s, 20, 3, 2, 38);
    assert Octet(s, 17, 2, 2, 52);
    assert Octet(s, 14, 1, 3, 144);
    assert Octet(s, 11, 1, 0, 0);
    assert Octet(s, 8, 0, 1, 1);
    assert Run(s, 9, 1, true, 2);
    assert Sep(s, 6, 1, true);
    assert Run(s, 4, 0, true, 2);
    assert Run(s, 3, 0, true, 1);
  }

  lemma Line185()
    ensures IsIPv6((("fe80:0:0" + ":0:204:6") + "1ff:254.") + ("157.241." + "86"))
  {
    var s := (("fe80:0:0" + ":0:204:6") + "1ff:254.") + ("157.241." + "86");
    assert Octet(s, 34, 3, 2, 86);
    assert Octet(s, 31, 2, 3, 241);
    assert Octet(s, 28, 2, 0, 0);
    assert Octet(s, 25, 1, 1, 1);
    assert Octet(s, 22, 0, 2, 25);
    assert Run(s, 23, 6, false, 3);
    assert Run(s, 20, 6, false, 0);
    assert Run(s, 18, 5, false, 3);
    assert Run(s, 15, 5, false, 0);
    assert Run(s, 13, 4, false, 2);
    assert Sep(s, 10, 4, false);
    assert Sep(s, 8, 3, false);
    assert Sep(s, 6, 2, false);
    assert Sep(s, 4, 1, false);
    assert Run(s, 2, 0, false, 2);
    assert Run(s, 1, 0, false, 1);
  }

  lemma Line186()
    ensures IsIPv6(("fe80::20" + "4:61ff:2") + ("54.157.2" + "41.86"))
  {
    var s := ("fe80::20" + "4:61ff:2") + ("54.157.2" + "41.86");
    assert Octet(s, 29, 3, 2, 86);
    assert Octet(s, 26, 2, 3, 241);
    assert Octet(s, 23, 2, 0, 0);
    assert Octet(s, 20, 1, 1, 1);
    assert Octet(s, 17, 0, 2, 25);
    assert Run(s, 18, 3, true, 3);
    assert Run(s, 15, 3, true, 0);
    assert Run(s, 13, 2, true, 3);
    assert Run(s, 10, 2, true, 0);
    assert Run(s, 8, 1, true, 2);
    assert Sep(s, 4, 1, false);
    assert Run(s, 2, 0, false, 2);
    assert Run(s, 1, 0, false, 1);
  }

  lemma Line187()
    ensures IsIPv6(("::ffff:1" + "2.34.56.") + "78")
  {
    var s := ("::ffff:1" + "2.34.56.") + "78";
    assert Octet(s, 18, 3, 2, 78);
    assert Octet(s, 15, 2, 2, 56);
    assert Octet(s, 12, 1, 2, 34);
    assert Octet(s, 9, 0, 2, 12);
    assert Run(s, 9, 1, true, 2);
    assert Sep(s, 6, 1, true);
    assert Run(s, 4, 0, true, 2);
    assert Run(s, 3, 0, true, 1);
  }

  lemma Line188()
    ensures !IsIPv6("::ffff:2" + ".3.4")
  {
    var s := "::ffff:2" + ".3.4";
    assert !Octet(s, 12, 2, 1, 4);
    assert !Octet(s, 10, 1, 1, 3);
    assert !Octet(s, 8, 0, 1, 2);
    assert !Run(s, 8, 1, true, 1);
    assert !Sep(s, 6, 1, true);
    assert !Run(s, 5, 0, true, 3);
    assert !Run(s, 3, 0, true, 1);
  }

  lemma Line189()
    ensures !IsIPv6("::ffff:2" + "57.1.2.3")
  {
    var s := "::ffff:2" + "57.1.2.3";
    assert !Octet(s, 9, 0, 2, 25);
    assert !Octet(s, 7, 0, 0, 0);
    assert !Run(s, 9, 1, true, 2);
    assert !Run(s, 7, 1, true, 0);
    assert !Run(s, 6, 0, true, 4);
    assert !Run(s, 4, 0, true, 2);
    assert !Run(s, 3, 0, true, 1);
  }

  lemma Line190()
    ensures !IsIPv6("1.2.3.4")
  {
  }

  lemma Line192()
    ensures !IsIPv6((("1.2.3.4:" + "1111:222") + "2:3333:4") + ("444::555" + "5"))
  {
    var s := (("1.2.3.4:" + "1111:222") + "2:3333:4") + ("444::555" + "5");
    assert !Run(s, 1, 0, false, 1);
  }

  lemma Line193()
    ensures !IsIPv6(("1.2.3.4:" + "1111:222") + ("2:3333::" + "5555"))
  {
    var s := ("1.2.3.4:" + "1111:222") + ("2:3333::" + "5555");
    assert !Run(s, 1, 0, false, 1);
  }

  lemma Line194()
    ensures !IsIPv6(("1.2.3.4:" + "1111:222") + "2::5555")
  {
    var s := ("1.2.3.4:" + "1111:222") + "2::5555";
    assert !Run(s, 1, 0, false, 1);
  }

  lemma Line195()
    ensures !IsIPv6(("1.2.3.4:" + "1111::55") + "55")
  {
    var s := ("1.2.3.4:" + "1111::55") + "55";
    assert !Run(s, 1, 0, false, 1);
  }

  lemma Line196()
    ensures !IsIPv6("1.2.3.4:" + ":5555")
  {
    var s := "1.2.3.4:" + ":5555";
    assert !Run(s, 1, 0, false, 1);
  }

  lemma Line197()
    ensures !IsIPv6("1.2.3.4:" + ":")
  {
    var s := "1.2.3.4:" + ":";
    assert !Run(s, 1, 0, false, 1);
  }

  lemma Line199()
    ensures !IsIPv6((("fe80:000" + "0:0000:0") + "000:0204") + ((":61ff:25" + "4.157.24") + "1.086"))
  {
    var s := (("fe80:000" + "0:0000:0") + "000:0204") + ((":61ff:25" + "4.157.24") + "1.086");
    assert !Octet(s, 43, 3, 1, 0);
    assert !Octet(s, 41, 2, 3, 241);
    assert !Octet(s, 39, 2, 1, 2);
    assert !Octet(s, 37, 1, 3, 157);
    assert !Octet(s, 35, 1, 1, 1);
    assert !Octet(s, 33, 0, 3, 254);
    assert !Octet(s, 31, 0, 1, 2);
    assert !Run(s, 33, 6, false, 3);
    assert !Run(s, 31, 6, false, 1);
    assert !Sep(s, 29, 6, false);
    assert !Run(s, 28, 5, false, 3);
    assert !Run(s, 26, 5, false, 1);
    assert !Sep(s, 24, 5, false);
    assert !Run(s, 23, 4, false, 3);
    assert !Run(s, 21, 4, false, 1);
    assert !Sep(s, 19, 4, false);
    assert !Run(s, 18, 3, false, 3);
    assert !Run(s, 16, 3, false, 1);
    assert !Sep(s, 14, 3, false);
    assert !Run(s, 13, 2, false, 3);
    assert !Run(s, 11, 2, false, 1);
    assert !Sep(s, 9, 2, false);
    assert !Run(s, 8, 1, false, 3);
    assert !Run(s, 6, 1, false, 1);
    assert !Sep(s, 4, 1, false);
    assert !Run(s, 3, 0, false, 3);
    assert !Run(s, 1, 0, false, 1);
  }

  lemma Line200()
    ensures IsIPv6(("::ffff:1" + "92.0.2.1") + "28")
  {
    var s := ("::ffff:1" + "92.0.2.1") + "28";
    assert Octet(s, 18, 3, 3, 128);
    assert Octet(s, 15, 3, 0, 0);
    assert Octet(s, 12, 1, 1, 0);
    assert Octet(s, 9, 0, 2, 19);
    assert Run(s, 10, 1, true, 3);
    assert Run(s, 7, 1, true, 0);
    assert Run(s, 5, 0, true, 3);
    assert Run(s, 3, 0, true, 1);
  }

  lemma Line201()
    ensures !IsIPv6((("XXXX:XXX" + "X:XXXX:X") + "XXX:XXXX") + (":XXXX:1." + "2.3.4"))
  {
    var s := (("XXXX:XXX" + "X:XXXX:X") + "XXX:XXXX") + (":XXXX:1." + "2.3.4");
  }

  lemma Line202()
    ensures !IsIPv6((("1111:222" + "2:3333:4") + "444:5555") + ((":6666:00" + ".00.00.0") + "0"))
  {
    var s := (("1111:222" + "2:3333:4") + "444:5555") + ((":6666:00" + ".00.00.0") + "0");
    assert !Octet(s, 31, 0, 1, 0);
    assert !Run(s, 32, 6, false, 2);
    assert !Run(s, 30, 6, false, 0);
    assert !Run(s, 29, 5, false, 4);
    assert !Run(s, 27, 5, false, 2);
    assert !Run(s, 25, 5, false, 0);
    assert !Run(s, 24, 4, false, 4);
    assert !Run(s, 22, 4, false, 2);
    assert !Run(s, 20, 4, false, 0);
    assert !Run(s, 19, 3, false, 4);
    assert !Run(s, 17, 3, false, 2);
    assert !Run(s, 15, 3, false, 0);
    assert !Run(s, 14, 2, false, 4);
    assert !Run(s, 12, 2, false, 2);
    assert !Run(s, 10, 2, false, 0);
    assert !Run(s, 9, 1, false, 4);
    assert !Run(s, 7, 1, false, 2);
    assert !Run(s, 5, 1, false, 0);
    assert !Run(s, 4, 0, false, 4);
    assert !Run(s, 2, 0, false, 2);
    assert !Run(s, 1, 0, false, 1);
  }

  lemma Line203()
    ensures !IsIPv6((("1111:222" + "2:3333:4") + "444:5555") + ((":6666:00" + "0.000.00") + "0.000"))
  {
    var s := (("1111:222" + "2:3333:4") + "444:5555") + ((":6666:00" + "0.000.00") + "0.000");
    assert !Octet(s, 31, 0, 1, 0);
    assert !Run(s, 33, 6, false, 3);
    assert !Run(s, 31, 6, false, 1);
    assert !Sep(s, 29, 6, false);
    assert !Run(s, 28, 5, false, 3);
    assert !Run(s, 26, 5, false, 1);
    assert !Sep(s, 24, 5, false);
    assert !Run(s, 23, 4, false, 3);
    assert !Run(s, 21, 4, false, 1);
    assert !Sep(s, 19, 4, false);
    assert !Run(s, 18, 3, false, 3);
    assert !Run(s, 16, 3, false, 1);
    assert !Sep(s, 14, 3, false);
    assert !Run(s, 13, 2, false, 3);
    assert !Run(s, 11, 2, false, 1);
    assert !Sep(s, 9, 2, false);
    assert !Run(s, 8, 1, false, 3);
    assert !Run(s, 6, 1, false, 1);
    assert !Sep(s, 4, 1, false);
    assert !Run(s, 3, 0, false, 3);
    assert !Run(s, 1, 0, false, 1);
  }

  lemma Line204()
    ensures !IsIPv6((("1111:222" + "2:3333:4") + "444:5555") + ((":6666:25" + "6.256.25") + "6.256"))
  {
    var s := (("1111:222" + "2:3333:4") + "444:5555") + ((":6666:25" + "6.256.25") + "6.256");
    assert !Octet(s, 32, 0, 2, 25);
    assert !Octet(s, 30, 0, 0, 0);
    assert !Run(s, 32, 6, false, 2);
    assert !Run(s, 30, 6, false, 0);
    assert !Run(s, 29, 5, false, 4);
    assert !Run(s, 27, 5, false, 2);
    assert !Run(s, 25, 5, false, 0);
    assert !Run(s, 24, 4, false, 4);
    assert !Run(s, 22, 4, false, 2);
    assert !Run(s, 20, 4, false, 0);
    assert !Run(s, 19, 3, false, 4);
    assert !Run(s, 17, 3, false, 2);
    assert !Run(s, 15, 3, false, 0);
    assert !Run(s, 14, 2, false, 4);
    assert !Run(s, 12, 2, false, 2);
    assert !Run(s, 10, 2, false, 0);
    assert !Run(s, 9, 1, false, 4);
    assert !Run(s, 7, 1, false, 2);
    assert !Run(s, 5, 1, false, 0);
    assert !Run(s, 4, 0, false, 4);
    assert !Run(s, 2, 0, false, 2);
    assert !Run(s, 1, 0, false, 1);
  }

  lemma Line206()
    ensures IsIPv6((("fe80:000" + "0:0000:0") + "000:0204") + (":61ff:fe" + "9d:f156"))
  {
    var s := (("fe80:000" + "0:0000:0") + "000:0204") + (":61ff:fe" + "9d:f156");
    assert Sep(s, 39, 8, false);
    assert Run(s, 37, 7, false, 2);
    assert Sep(s, 34, 7, false);
    assert Run(s, 32, 6, false, 2);
    assert Sep(s, 29, 6, false);
    assert Run(s, 27, 5, false, 2);
    assert Sep(s, 24, 5, false);
    assert Run(s, 22, 4, false, 2);
    assert Sep(s, 19, 4, false);
    assert Run(s, 17, 3, false, 2);
    assert Sep(s, 14, 3, false);
    assert Run(s, 12, 2, false, 2);
    assert Sep(s, 9, 2, false);
    assert Run(s, 7, 1, false, 2);
    assert Sep(s, 4, 1, false);
    assert Run(s, 2, 0, false, 2);
    assert Run(s, 1, 0, false, 1);
  }

  lemma Line207()
    ensures IsIPv6(("fe80:0:0" + ":0:204:6") + ("1ff:fe9d" + ":f156"))
  {
    var s := ("fe80:0:0" + ":0:204:6") + ("1ff:fe9d" + ":f156");
    assert Sep(s, 29, 8, false);
    assert Run(s, 27, 7, false, 2);
    assert Sep(s, 24, 7, false);
    assert Run(s, 22, 6, false, 2);
    assert Sep(s, 19, 6, false);
    assert Run(s, 17, 5, false, 2);
    assert Sep(s, 14, 5, false);
    assert Run(s, 12, 4, false, 1);
    assert Run(s, 10, 3, false, 1);
    assert Run(s, 8, 2, false, 1);
    assert Run(s, 6, 1, false, 1);
    assert Run(s, 4, 0, false, 4);
    assert Run(s, 1, 0, false, 1);
  }

  lemma Line208()
    ensures IsIPv6(("fe80::20" + "4:61ff:f") + "e9d:f156")
  {
    var s := ("fe80::20" + "4:61ff:f") + "e9d:f156";
    assert Sep(s, 24, 5, true);
    assert Run(s, 22, 4, true, 2);
    assert Sep(s, 19, 4, true);
    assert Run(s, 17, 3, true, 2);
    assert Sep(s, 14, 3, true);
    assert Run(s, 12, 2, true, 2);
    assert Sep(s, 9, 2, true);
    assert Run(s, 7, 1, true, 1);
    assert Run(s, 4, 0, false, 4);
    assert Run(s, 1, 0, false, 1);
  }

  lemma Line209()
    ensures IsIPv6("::1")
  {
  }

  lemma Line210()
    ensures IsIPv6("fe80::")
  {
  }

  lemma Line211()
    ensures IsIPv6("fe80::1")
  {
  }

  lemma Line212()
    ensures !IsIPv6(":")
  {
  }

  lemma Line213()
    ensures IsIPv6("::ffff:c" + "000:280")
  {
    var s := "::ffff:c" + "000:280";
    assert Sep(s, 15, 3, true);
    assert Run(s, 13, 2, true, 1);
    assert Run(s, 11, 1, true, 4);
    assert Run(s, 8, 1, true, 1);
    assert Run(s, 6, 0, true, 4);
    assert Run(s, 3, 0, true, 1);
  }

  lemma Line215()
    ensures !IsIPv6(("1111:222" + "2:3333:4") + ("444::555" + "5:"))
  {
    var s := ("1111:222" + "2:3333:4") + ("444::555" + "5:");
    assert !Sep(s, 25, 5, true);
    assert !Run(s, 24, 4, true, 3);
    assert !Run(s, 22, 4, true, 1);
    assert !Sep(s, 19, 4, false);
    assert !Run(s, 18, 3, false, 3);
    assert !Run(s, 16, 3, false, 1);
    assert !Sep(s, 14, 3, false);
    assert !Run(s, 13, 2, false, 3);
    assert !Run(s, 11, 2, false, 1);
    assert !Sep(s, 9, 2, false);
    assert !Run(s, 8, 1, false, 3);
    assert !Run(s, 6, 1, false, 1);
    assert !Sep(s, 4, 1, false);
    assert !Run(s, 3, 0, false, 3);
    assert !Run(s, 1, 0, false, 1);
  }

  lemma Line216()
    ensures !IsIPv6(("1111:222" + "2:3333::") + "5555:")
  {
    var s := ("1111:222" + "2:3333::") + "5555:";
    assert !Sep(s, 20, 4, true);
    assert !Run(s, 19, 3, true, 3);
    assert !Run(s, 17, 3, true, 1);
    assert !Sep(s, 14, 3, false);
    assert !Run(s, 13, 2, false, 3);
    assert !Run(s, 11, 2, false, 1);
    assert !Sep(s, 9, 2, false);
    assert !Run(s, 8, 1, false, 3);
    assert !Run(s, 6, 1, false, 1);
    assert !Sep(s, 4, 1, false);
    assert !Run(s, 3, 0, false, 3);
    assert !Run(s, 1, 0, false, 1);
  }

  lemma Line217()
    ensures !IsIPv6("1111:222" + "2::5555:")
  {
    var s := "1111:222" + "2::5555:";
    assert !Sep(s, 15, 3, true);
    assert !Run(s, 14, 2, true, 3);
    assert !Run(s, 12, 2, true, 1);
    assert !Sep(s, 9, 2, false);
    assert !Run(s, 8, 1, false, 3);
    assert !Run(s, 6, 1, false, 1);
    assert !Sep(s, 4, 1, false);
    assert !Run(s, 3, 0, false, 3);
    assert !Run(s, 1, 0, false, 1);
  }

  lemma Line218()
    ensures !IsIPv6("1111::55" + "55:")
  {
    var s := "1111::55" + "55:";
    assert !Sep(s, 10, 2, true);
    assert !Run(s, 9, 1, true, 3);
    assert !Run(s, 7, 1, true, 1);
    assert !Sep(s, 4, 1, false);
    assert !Run(s, 3, 0, false, 3);
    assert !Run(s, 1, 0, false, 1);
  }

  lemma Line219()
    ensures !IsIPv6("::5555:")
  {
  }

  lemma Line220()
    ensures !IsIPv6(":::")
  {
  }

  lemma Line221()
    ensures !IsIPv6("1111:")
  {
  }

  lemma Line222()
    ensures !IsIPv6(":")
  {
  }

  lemma Line224()
    ensures !IsIPv6((":1111:22" + "22:3333:") + ("4444::55" + "55"))
  {
    var s := (":1111:22" + "22:3333:") + ("4444::55" + "55");
  }

  lemma Line225()
    ensures !IsIPv6((":1111:22" + "22:3333:") + ":5555")
  {
    var s := (":1111:22" + "22:3333:") + ":5555";
  }

  lemma Line226()
    ensures !IsIPv6(":1111:22" + "22::5555")
  {
    var s := ":1111:22" + "22::5555";
  }

  lemma Line227()
    ensures !IsIPv6(":1111::5" + "555")
  {
    var s := ":1111::5" + "555";
  }

  lemma Line228()
    ensures !IsIPv6(":::5555")
  {
  }

  lemma Line229()
    ensures !IsIPv6(":::")
  {
  }

  lemma Line231()
    ensures IsIPv6((("2001:0db" + "8:85a3:0") + "000:0000") + (":8a2e:03" + "70:7334"))
  {
    var s := (("2001:0db" + "8:85a3:0") + "000:0000") + (":8a2e:03" + "70:7334");
    assert Sep(s, 39, 8, false);
    assert Run(s, 37, 7, false, 2);
    assert Sep(s, 34, 7, false);
    assert Run(s, 32, 6, false, 2);
    assert Sep(s, 29, 6, false);
    assert Run(s, 27, 5, false, 2);
    assert Sep(s, 24, 5, false);
    assert Run(s, 22, 4, false, 2);
    assert Sep(s, 19, 4, false);
    assert Run(s, 17, 3, false, 2);
    assert Sep(s, 14, 3, false);
    assert Run(s, 12, 2, false, 2);
    assert Sep(s, 9, 2, false);
    assert Run(s, 7, 1, false, 2);
    assert Sep(s, 4, 1, false);
    assert Run(s, 2, 0, false, 2);
    assert Run(s, 1, 0, false, 1);
  }

  lemma Line232()
    ensures IsIPv6(("2001:db8" + ":85a3:0:") + ("0:8a2e:3" + "70:7334"))
  {
    var s := ("2001:db8" + ":85a3:0:") + ("0:8a2e:3" + "70:7334");
    assert Sep(s, 31, 8, false);
    assert Run(s, 29, 7, false, 2);
    assert Sep(s, 26, 7, false);
    assert Run(s, 24, 6, false, 1);
    assert Run(s, 22, 5, false, 4);
    assert Run(s, 19, 5, false, 1);
    assert Run(s, 17, 4, false, 1);
    assert Run(s, 15, 3, false, 1);
    assert Run(s, 13, 2, false, 4);
    assert Run(s, 10, 2, false, 1);
    assert Run(s, 8, 1, false, 3);
    assert Run(s, 5, 1, false, 0);
    assert Run(s, 3, 0, false, 3);
    assert Run(s, 1, 0, false, 1);
  }

  lemma Line233()
    ensures IsIPv6(("2001:db8" + ":85a3::8") + ("a2e:370:" + "7334"))
  {
    var s := ("2001:db8" + ":85a3::8") + ("a2e:370:" + "7334");
    assert Sep(s, 28, 6, true);
    assert Run(s, 26, 5, true, 2);
    assert Sep(s, 23, 5, true);
    assert Run(s, 21, 4, true, 1);
    assert Run(s, 19, 3, true, 4);
    assert Run(s, 16, 3, true, 1);
    assert Run(s, 13, 2, false, 4);
    assert Run(s, 10, 2, false, 1);
    assert Run(s, 8, 1, false, 3);
    assert Run(s, 5, 1, false, 0);
    assert Run(s, 3, 0, false, 3);
    assert Run(s, 1, 0, false, 1);
  }

  lemma Line234()
    ensures IsIPv6((("2001:0db" + "8:0000:0") + "000:0000") + (":0000:14" + "28:57ab"))
  {
    var s := (("2001:0db" + "8:0000:0") + "000:0000") + (":0000:14" + "28:57ab");
    assert Sep(s, 39, 8, false);
    assert Run(s, 37, 7, false, 2);
    assert Sep(s, 34, 7, false);
    assert Run(s, 32, 6, false, 2);
    assert Sep(s, 29, 6, false);
    assert Run(s, 27, 5, false, 2);
    assert Sep(s, 24, 5, false);
    assert Run(s, 22, 4, false, 2);
    assert Sep(s, 19, 4, false);
    assert Run(s, 17, 3, false, 2);
    assert Sep(s, 14, 3, false);
    assert Run(s, 12, 2, false, 2);
    assert Sep(s, 9, 2, false);
    assert Run(s, 7, 1, false, 2);
    assert Sep(s, 4, 1, false);
    assert Run(s, 2, 0, false, 2);
    assert Run(s, 1, 0, false, 1);
  }

  lemma Line235()
    ensures IsIPv6((("2001:0db" + "8:0000:0") + "000:0000") + ("::1428:5" + "7ab"))
  {
    var s := (("2001:0db" + "8:0000:0") + "000:0000") + ("::1428:5" + "7ab");
    assert Sep(s, 35, 7, true);
    assert Run(s, 33, 6, true, 2);
    assert Sep(s, 30, 6, true);
    assert Run(s, 28, 5, true, 2);
    assert Sep(s, 24, 5, false);
    assert Run(s, 22, 4, false, 2);
    assert Sep(s, 19, 4, false);
    assert Run(s, 17, 3, false, 2);
    assert Sep(s, 14, 3, false);
    assert Run(s, 12, 2, false, 2);
    assert Sep(s, 9, 2, false);
    assert Run(s, 7, 1, false, 2);
    assert Sep(s, 4, 1, false);
    assert Run(s, 2, 0, false, 2);
    assert Run(s, 1, 0, false, 1);
  }

  lemma Line236()
    ensures IsIPv6(("2001:0db" + "8:0:0:0:") + ("0:1428:5" + "7ab"))
  {
    var s := ("2001:0db" + "8:0:0:0:") + ("0:1428:5" + "7ab");
    assert Sep(s, 27, 8, false);
    assert Run(s, 25, 7, false, 2);
    assert Sep(s, 22, 7, false);
    assert Run(s, 20, 6, false, 2);
    assert Sep(s, 17, 6, false);
    assert Sep(s, 15, 5, false);
    assert Sep(s, 13, 4, false);
    assert Sep(s, 11, 3, false);
    assert Sep(s, 9, 2, false);
    assert Run(s, 7, 1, false, 2);
    assert Sep(s, 4, 1, false);
    assert Run(s, 2, 0, false, 2);
    assert Run(s, 1, 0, false, 1);
  }

  lemma Line237()
    ensures IsIPv6(("2001:0db" + "8:0:0::1") + "428:57ab")
  {
    var s := ("2001:0db" + "8:0:0::1") + "428:57ab";
    assert Sep(s, 24, 6, true);
    assert Run(s, 22, 5, true, 2);
    assert Sep(s, 19, 5, true);
    assert Run(s, 17, 4, true, 2);
    assert Sep(s, 13, 4, false);
    assert Sep(s, 11, 3, false);
    assert Sep(s, 9, 2, false);
    assert Run(s, 7, 1, false, 2);
    assert Sep(s, 4, 1, false);
    assert Run(s, 2, 0, false, 2);
    assert Run(s, 1, 0, false, 1);
  }

  lemma Line238()
    ensures IsIPv6(("2001:0db" + "8::1428:") + "57ab")
  {
    var s := ("2001:0db" + "8::1428:") + "57ab";
    assert Sep(s, 20, 4, true);
    assert Run(s, 18, 3, true, 2);
    assert Sep(s, 15, 3, true);
    assert Run(s, 13, 2, true, 2);
    assert Sep(s, 9, 2, false);
    assert Run(s, 7, 1, false, 2);
    assert Sep(s, 4, 1, false);
    assert Run(s, 2, 0, false, 2);
    assert Run(s, 1, 0, false, 1);
  }

  lemma Line239()
    ensures IsIPv6(("2001:db8" + "::1428:5") + "7ab")
  {
    var s := ("2001:db8" + "::1428:5") + "7ab";
    assert Sep(s, 19, 4, true);
    assert Run(s, 17, 3, true, 2);
    assert Sep(s, 14, 3, true);
    assert Run(s, 12, 2, true, 2);
    assert Sep(s, 8, 2, false);
    assert Run(s, 6, 1, false, 1);
    assert Run(s, 4, 0, false, 4);
    assert Run(s, 1, 0, false, 1);
  }

  lemma Line240()
    ensures IsIPv6((("0000:000" + "0:0000:0") + "000:0000") + (":0000:00" + "00:0001"))
  {
    var s := (("0000:000" + "0:0000:0") + "000:0000") + (":0000:00" + "00:0001");
    assert Sep(s, 39, 8, false);
    assert Run(s, 37, 7, false, 2);
    assert Sep(s, 34, 7, false);
    assert Run(s, 32, 6, false, 2);
    assert Sep(s, 29, 6, false);
    assert Run(s, 27, 5, false, 2);
    assert Sep(s, 24, 5, false);
    assert Run(s, 22, 4, false, 2);
    assert Sep(s, 19, 4, false);
    assert Run(s, 17, 3, false, 2);
    assert Sep(s, 14, 3, false);
    assert Run(s, 12, 2, false, 2);
    assert Sep(s, 9, 2, false);
    assert Run(s, 7, 1, false, 2);
    assert Sep(s, 4, 1, false);
    assert Run(s, 2, 0, false, 2);
    assert Run(s, 1, 0, false, 1);
  }

  lemma Line241()
    ensures IsIPv6("::1")
  {
  }

  lemma Line242()
    ensures IsIPv6("::ffff:0" + "c22:384e")
  {
    var s := "::ffff:0" + "c22:384e";
    assert Sep(s, 16, 3, true);
    assert Run(s, 14, 2, true, 2);
    assert Sep(s, 11, 2, true);
    assert Run(s, 9, 1, true, 2);
    assert Sep(s, 6, 1, true);
    assert Run(s, 4, 0, true, 2);
    assert Run(s, 3, 0, true, 1);
  }

  lemma Line243()
    ensures IsIPv6((("2001:0db" + "8:1234:0") + "000:0000") + (":0000:00" + "00:0000"))
  {
    var s := (("2001:0db" + "8:1234:0") + "000:0000") + (":0000:00" + "00:0000");
    assert Sep(s, 39, 8, false);
    assert Run(s, 37, 7, false, 2);
    assert Sep(s, 34, 7, false);
    assert Run(s, 32, 6, false, 2);
    assert Sep(s, 29, 6, false);
    assert Run(s, 27, 5, false, 2);
    assert Sep(s, 24, 5, false);
    assert Run(s, 22, 4, false, 2);
    assert Sep(s, 19, 4, false);
    assert Run(s, 17, 3, false, 2);
    assert Sep(s, 14, 3, false);
    assert Run(s, 12, 2, false, 2);
    assert Sep(s, 9, 2, false);
    assert Run(s, 7, 1, false, 2);
    assert Sep(s, 4, 1, false);
    assert Run(s, 2, 0, false, 2);
    assert Run(s, 1, 0, false, 1);
  }

  lemma Line244()
    ensures IsIPv6((("2001:0db" + "8:1234:f") + "fff:ffff") + (":ffff:ff" + "ff:ffff"))
  {
    var s := (("2001:0db" + "8:1234:f") + "fff:ffff") + (":ffff:ff" + "ff:ffff");
    assert Sep(s, 39, 8, false);
    assert Run(s, 37, 7, false, 2);
    assert Sep(s, 34, 7, false);
    assert Run(s, 32, 6, false, 2);
    assert Sep(s, 29, 6, false);
    assert Run(s, 27, 5, false, 2);
    assert Sep(s, 24, 5, false);
    assert Run(s, 22, 4, false, 2);
    assert Sep(s, 19, 4, false);
    assert Run(s, 17, 3, false, 2);
    assert Sep(s, 14, 3, false);
    assert Run(s, 12, 2, false, 2);
    assert Sep(s, 9, 2, false);
    assert Run(s, 7, 1, false, 2);
    assert Sep(s, 4, 1, false);
    assert Run(s, 2, 0, false, 2);
    assert Run(s, 1, 0, false, 1);
  }

  lemma Line245()
    ensures IsIPv6("2001:db8" + ":a::123")
  {
    var s := "2001:db8" + ":a::123";
    assert Sep(s, 15, 4, true);
    assert Run(s, 13, 3, true, 1);
    assert Run(s, 10, 2, false, 1);
    assert Run(s, 8, 1, false, 3);
    assert Run(s, 5, 1, false, 0);
    assert Run(s, 3, 0, false, 3);
    assert Run(s, 1, 0, false, 1);
  }

  lemma Line246()
    ensures IsIPv6("fe80::")
  {
  }

  lemma Line248()
    ensures !IsIPv6("123")
  {
  }

  lemma Line249()
    ensures !IsIPv6("ldkfj")
  {
  }

  lemma Line250()
    ensures !IsIPv6("2001::FF" + "D3::57ab")
  {
    var s := "2001::FF" + "D3::57ab";
    assert !Sep(s, 10, 2, true);
    assert !Run(s, 9, 1, true, 3);
    assert !Run(s, 7, 1, true, 1);
    assert !Sep(s, 4, 1, false);
    assert !Run(s, 3, 0, false, 3);
    assert !Run(s, 1, 0, false, 1);
  }

  lemma Line251()
    ensures !IsIPv6(("2001:db8" + ":85a3::8") + ("a2e:3702" + "3:7334"))
  {
    var s := ("2001:db8" + ":85a3::8") + ("a2e:3702" + "3:7334");
    assert !Run(s, 24, 4, true, 4);
    assert !Run(s, 22, 4, true, 2);
    assert !Run(s, 20, 4, true, 0);
    assert !Run(s, 19, 3, true, 4);
    assert !Run(s, 17, 3, true, 2);
    assert !Run(s, 15, 3, true, 0);
    assert !Run(s, 13, 2, false, 4);
    assert !Run(s, 11, 2, false, 2);
    assert !Run(s, 9, 2, false, 0);
    assert !Run(s, 8, 1, false, 3);
    assert !Run(s, 6, 1, false, 1);
    assert !Sep(s, 4, 1, false);
    assert !Run(s, 3, 0, false, 3);
    assert !Run(s, 1, 0, false, 1);
  }

  lemma Line252()
    ensures !IsIPv6(("2001:db8" + ":85a3::8") + ("a2e:370k" + ":7334"))
  {
    var s := ("2001:db8" + ":85a3::8") + ("a2e:370k" + ":7334");
    assert !Sep(s, 23, 5, true);
    assert !Run(s, 22, 4, true, 2);
    assert !Run(s, 20, 4, true, 0);
    assert !Run(s, 19, 3, true, 4);
    assert !Run(s, 17, 3, true, 2);
    assert !Run(s, 15, 3, true, 0);
    assert !Run(s, 13, 2, false, 4);
    assert !Run(s, 11, 2, false, 2);
    assert !Run(s, 9, 2, false, 0);
    assert !Run(s, 8, 1, false, 3);
    assert !Run(s, 6, 1, false, 1);
    assert !Sep(s, 4, 1, false);
    assert !Run(s, 3, 0, false, 3);
    assert !Run(s, 1, 0, false, 1);
  }

  lemma Line253()
    ensures !IsIPv6(("1:2:3:4:" + "5:6:7:8:") + "9")
  {
    var s := ("1:2:3:4:" + "5:6:7:8:") + "9";
    assert !Sep(s, 17, 9, false);
    assert !Run(s, 16, 8, false, 0);
    assert !Run(s, 15, 7, false, 1);
    assert !Sep(s, 13, 7, false);
    assert !Run(s, 12, 6, false, 0);
    assert !Run(s, 11, 5, false, 1);
    assert !Sep(s, 9, 5, false);
    assert !Run(s, 8, 4, false, 0);
    assert !Run(s, 7, 3, false, 1);
    assert !Sep(s, 5, 3, false);
    assert !Run(s, 4, 2, false, 0);
    assert !Run(s, 3, 1, false, 1);
    assert !Sep(s, 1, 1, false);
    assert !Run(s, 1, 0, false, 1);
  }

  lemma Line254()
    ensures !IsIPv6("1::2::3")
  {
  }

  lemma Line255()
    ensures !IsIPv6("1:::3:4:" + "5")
  {
    var s := "1:::3:4:" + "5";
    assert !Run(s, 3, 1, true, 0);
    assert !Run(s, 1, 0, false, 1);
  }

  lemma Line256()
    ensures !IsIPv6(("1:2:3::4" + ":5:6:7:8") + ":9")
  {
    var s := ("1:2:3::4" + ":5:6:7:8") + ":9";
    assert !Sep(s, 18, 9, true);
    assert !Run(s, 17, 8, true, 0);
    assert !Run(s, 16, 7, true, 1);
    assert !Sep(s, 14, 7, true);
    assert !Run(s, 13, 6, true, 0);
    assert !Run(s, 12, 5, true, 1);
    assert !Sep(s, 10, 5, true);
    assert !Run(s, 9, 4, true, 0);
    assert !Run(s, 8, 3, true, 1);
    assert !Sep(s, 5, 3, false);
    assert !Run(s, 4, 2, false, 0);
    assert !Run(s, 3, 1, false, 1);
    assert !Sep(s, 1, 1, false);
    assert !Run(s, 1, 0, false, 1);
  }

  lemma Line258()
    ensures IsIPv6((("1111:222" + "2:3333:4") + "444:5555") + (":6666:77" + "77:8888"))
  {
    var s := (("1111:222" + "2:3333:4") + "444:5555") + (":6666:77" + "77:8888");
    assert Sep(s, 39, 8, false);
    assert Run(s, 37, 7, false, 2);
    assert Sep(s, 34, 7, false);
    assert Run(s, 32, 6, false, 2);
    assert Sep(s, 29, 6, false);
    assert Run(s, 27, 5, false, 2);
    assert Sep(s, 24, 5, false);
    assert Run(s, 22, 4, false, 2);
    assert Sep(s, 19, 4, false);
    assert Run(s, 17, 3, false, 2);
    assert Sep(s, 14, 3, false);
    assert Run(s, 12, 2, false, 2);
    assert Sep(s, 9, 2, false);
    assert Run(s, 7, 1, false, 2);
    assert Sep(s, 4, 1, false);
    assert Run(s, 2, 0, false, 2);
    assert Run(s, 1, 0, false, 1);
  }

  lemma Line259()
    ensures IsIPv6((("1111:222" + "2:3333:4") + "444:5555") + (":6666:77" + "77::"))
  {
    var s := (("1111:222" + "2:3333:4") + "444:5555") + (":6666:77" + "77::");
    assert Sep(s, 34, 7, false);
    assert Run(s, 32, 6, false, 2);
    assert Sep(s, 29, 6, false);
    assert Run(s, 27, 5, false, 2);
    assert Sep(s, 24, 5, false);
    assert Run(s, 22, 4, false, 2);
    assert Sep(s, 19, 4, false);
    assert Run(s, 17, 3, false, 2);
    assert Sep(s, 14, 3, false);
    assert Run(s, 12, 2, false, 2);
    assert Sep(s, 9, 2, false);
    assert Run(s, 7, 1, false, 2);
    assert Sep(s, 4, 1, false);
    assert Run(s, 2, 0, false, 2);
    assert Run(s, 1, 0, false, 1);
  }

  lemma Line260()
    ensures IsIPv6(("1111:222" + "2:3333:4") + ("444:5555" + ":6666::"))
  {
    var s := ("1111:222" + "2:3333:4") + ("444:5555" + ":6666::");
    assert Sep(s, 29, 6, false);
    assert Run(s, 27, 5, false, 2);
    assert Sep(s, 24, 5, false);
    assert Run(s, 22, 4, false, 2);
    assert Sep(s, 19, 4, false);
    assert Run(s, 17, 3, false, 2);
    assert Sep(s, 14, 3, false);
    assert Run(s, 12, 2, false, 2);
    assert Sep(s, 9, 2, false);
    assert Run(s, 7, 1, false, 2);
    assert Sep(s, 4, 1, false);
    assert Run(s, 2, 0, false, 2);
    assert Run(s, 1, 0, false, 1);
  }

  lemma Line261()
    ensures IsIPv6(("1111:222" + "2:3333:4") + ("444:5555" + "::"))
  {
    var s := ("1111:222" + "2:3333:4") + ("444:5555" + "::");
    assert Sep(s, 24, 5, false);
    assert Run(s, 22, 4, false, 2);
    assert Sep(s, 19, 4, false);
    assert Run(s, 17, 3, false, 2);
    assert Sep(s, 14, 3, false);
    assert Run(s, 12, 2, false, 2);
    assert Sep(s, 9, 2, false);
    assert Run(s, 7, 1, false, 2);
    assert Sep(s, 4, 1, false);
    assert Run(s, 2, 0, false, 2);
    assert Run(s, 1, 0, false, 1);
  }

  lemma Line262()
    ensures IsIPv6(("1111:222" + "2:3333:4") + "444::")
  {
    var s := ("1111:222" + "2:3333:4") + "444::";
    assert Sep(s, 19, 4, false);
    assert Run(s, 17, 3, false, 2);
    assert Sep(s, 14, 3, false);
    assert Run(s, 12, 2, false, 2);
    assert Sep(s, 9, 2, false);
    assert Run(s, 7, 1, false, 2);
    assert Sep(s, 4, 1, false);
    assert Run(s, 2, 0, false, 2);
    assert Run(s, 1, 0, false, 1);
  }

  lemma Line263()
    ensures IsIPv6("1111:222" + "2:3333::")
  {
    var s := "1111:222" + "2:3333::";
    assert Sep(s, 14, 3, false);
    assert Run(s, 12, 2, false, 2);
    assert Sep(s, 9, 2, false);
    assert Run(s, 7, 1, false, 2);
    assert Sep(s, 4, 1, false);
    assert Run(s, 2, 0, false, 2);
    assert Run(s, 1, 0, false, 1);
  }

  lemma Line264()
    ensures IsIPv6("1111:222" + "2::")
  {
    var s := "1111:222" + "2::";
    assert Sep(s, 9, 2, false);
    assert Run(s, 7, 1, false, 2);
    assert Sep(s, 4, 1, false);
    assert Run(s, 2, 0, false, 2);
    assert Run(s, 1, 0, false, 1);
  }

  lemma Line265()
    ensures IsIPv6("1111::")
  {
  }

  lemma Line267()
    ensures IsIPv6((("1111:222" + "2:3333:4") + "444:5555") + (":6666::8" + "888"))
  {
    var s := (("1111:222" + "2:3333:4") + "444:5555") + (":6666::8" + "888");
    assert Sep(s, 35, 7, true);
    assert Run(s, 33, 6, true, 2);
    assert Sep(s, 29, 6, false);
    assert Run(s, 27, 5, false, 2);
    assert Sep(s, 24, 5, false);
    assert Run(s, 22, 4, false, 2);
    assert Sep(s, 19, 4, false);
    assert Run(s, 17, 3, false, 2);
    assert Sep(s, 14, 3, false);
    assert Run(s, 12, 2, false, 2);
    assert Sep(s, 9, 2, false);
    assert Run(s, 7, 1, false, 2);
    assert Sep(s, 4, 1, false);
    assert Run(s, 2, 0, false, 2);
    assert Run(s, 1, 0, false, 1);
  }

  lemma Line268()
    ensures IsIPv6(("1111:222" + "2:3333:4") + ("444:5555" + "::8888"))
  {
    var s := ("1111:222" + "2:3333:4") + ("444:5555" + "::8888");
    assert Sep(s, 30, 6, true);
    assert Run(s, 28, 5, true, 2);
    assert Sep(s, 24, 5, false);
    assert Run(s, 22, 4, false, 2);
    assert Sep(s, 19, 4, false);
    assert Run(s, 17, 3, false, 2);
    assert Sep(s, 14, 3, false);
    assert Run(s, 12, 2, false, 2);
    assert Sep(s, 9, 2, false);
    assert Run(s, 7, 1, false, 2);
    assert Sep(s, 4, 1, false);
    assert Run(s, 2, 0, false, 2);
    assert Run(s, 1, 0, false, 1);
  }

  lemma Line269()
    ensures IsIPv6(("1111:222" + "2:3333:4") + ("444::888" + "8"))
  {
    var s := ("1111:222" + "2:3333:4") + ("444::888" + "8");
    assert Sep(s, 25, 5, true);
    assert Run(s, 23, 4, true, 2);
    assert Sep(s, 19, 4, false);
    assert Run(s, 17, 3, false, 2);
    assert Sep(s, 14, 3, false);
    assert Run(s, 12, 2, false, 2);
    assert Sep(s, 9, 2, false);
    assert Run(s, 7, 1, false, 2);
    assert Sep(s, 4, 1, false);
    assert Run(s, 2, 0, false, 2);
    assert Run(s, 1, 0, false, 1);
  }

  lemma Line270()
    ensures IsIPv6(("1111:222" + "2:3333::") + "8888")
  {
    var s := ("1111:222" + "2:3333::") + "8888";
    assert Sep(s, 20, 4, true);
    assert Run(s, 18, 3, true, 2);
    assert Sep(s, 14, 3, false);
    assert Run(s, 12, 2, false, 2);
    assert Sep(s, 9, 2, false);
    assert Run(s, 7, 1, false, 2);
    assert Sep(s, 4, 1, false);
    assert Run(s, 2, 0, false, 2);
    assert Run(s, 1, 0, false, 1);
  }

  lemma Line271()
    ensures IsIPv6("1111:222" + "2::8888")
  {
    var s := "1111:222" + "2::8888";
    assert Sep(s, 15, 3, true);
    assert Run(s, 13, 2, true, 2);
    assert Sep(s, 9, 2, false);
    assert Run(s, 7, 1, false, 2);
    assert Sep(s, 4, 1, false);
    assert Run(s, 2, 0, false, 2);
    assert Run(s, 1, 0, false, 1);
  }

  lemma Line272()
    ensures IsIPv6("1111::88" + "88")
  {
    var s := "1111::88" + "88";
    assert Sep(s, 10, 2, true);
    assert Run(s, 8, 1, true, 2);
    assert Sep(s, 4, 1, false);
    assert Run(s, 2, 0, false, 2);
    assert Run(s, 1, 0, false, 1);
  }

  lemma Line273()
    ensures IsIPv6("::8888")
  {
  }

  lemma Line274()
    ensures IsIPv6((("1111:222" + "2:3333:4") + "444:5555") + ("::7777:8" + "888"))
  {
    var s := (("1111:222" + "2:3333:4") + "444:5555") + ("::7777:8" + "888");
    assert Sep(s, 35, 7, true);
    assert Run(s, 33, 6, true, 2);
    assert Sep(s, 30, 6, true);
    assert Run(s, 28, 5, true, 2);
    assert Sep(s, 24, 5, false);
    assert Run(s, 22, 4, false, 2);
    assert Sep(s, 19, 4, false);
    assert Run(s, 17, 3, false, 2);
    assert Sep(s, 14, 3, false);
    assert Run(s, 12, 2, false, 2);
    assert Sep(s, 9, 2, false);
    assert Run(s, 7, 1, false, 2);
    assert Sep(s, 4, 1, false);
    assert Run(s, 2, 0, false, 2);
    assert Run(s, 1, 0, false, 1);
  }

  lemma Line275()
    ensures IsIPv6(("1111:222" + "2:3333:4") + ("444::777" + "7:8888"))
  {
    var s := ("1111:222" + "2:3333:4") + ("444::777" + "7:8888");
    assert Sep(s, 30, 6, true);
    assert Run(s, 28, 5, true, 2);
    assert Sep(s, 25, 5, true);
    assert Run(s, 23, 4, true, 2);
    assert Sep(s, 19, 4, false);
    assert Run(s, 17, 3, false, 2);
    assert Sep(s, 14, 3, false);
    assert Run(s, 12, 2, false, 2);
    assert Sep(s, 9, 2, false);
    assert Run(s, 7, 1, false, 2);
    assert Sep(s, 4, 1, false);
    assert Run(s, 2, 0, false, 2);
    assert Run(s, 1, 0, false, 1);
  }

  lemma Line276()
    ensures IsIPv6(("1111:222" + "2:3333::") + ("7777:888" + "8"))
  {
    var s := ("1111:222" + "2:3333::") + ("7777:888" + "8");
    assert Sep(s, 25, 5, true);
    assert Run(s, 23, 4, true, 2);
    assert Sep(s, 20, 4, true);
    assert Run(s, 18, 3, true, 2);
    assert Sep(s, 14, 3, false);
    assert Run(s, 12, 2, false, 2);
    assert Sep(s, 9, 2, false);
    assert Run(s, 7, 1, false, 2);
    assert Sep(s, 4, 1, false);
    assert Run(s, 2, 0, false, 2);
    assert Run(s, 1, 0, false, 1);
  }

  lemma Line277()
    ensures IsIPv6(("1111:222" + "2::7777:") + "8888")
  {
    var s := ("1111:222" + "2::7777:") + "8888";
    assert Sep(s, 20, 4, true);
    assert Run(s, 18, 3, true, 2);
    assert Sep(s, 15, 3, true);
    assert Run(s, 13, 2, true, 2);
    assert Sep(s, 9, 2, false);
    assert Run(s, 7, 1, false, 2);
    assert Sep(s, 4, 1, false);
    assert Run(s, 2, 0, false, 2);
    assert Run(s, 1, 0, false, 1);
  }

  lemma Line278()
    ensures IsIPv6("1111::77" + "77:8888")
  {
    var s := "1111::77" + "77:8888";
    assert Sep(s, 15, 3, true);
    assert Run(s, 13, 2, true, 2);
    assert Sep(s, 10, 2, true);
    assert Run(s, 8, 1, true, 2);
    assert Sep(s, 4, 1, false);
    assert Run(s, 2, 0, false, 2);
    assert Run(s, 1, 0, false, 1);
  }

  lemma Line279()
    ensures IsIPv6("::7777:8" + "888")
  {
    var s := "::7777:8" + "888";
    assert Sep(s, 11, 2, true);
    assert Run(s, 9, 1, true, 2);
    assert Sep(s, 6, 1, true);
    assert Run(s, 4, 0, true, 2);
    assert Run(s, 3, 0, true, 1);
  }

  lemma Line280()
    ensures IsIPv6((("1111:222" + "2:3333:4") + "444::666") + ("6:7777:8" + "888"))
  {
    var s := (("1111:222" + "2:3333:4") + "444::666") + ("6:7777:8" + "888");
    assert Sep(s, 35, 7, true);
    assert Run(s, 33, 6, true, 2);
    assert Sep(s, 30, 6, true);
    assert Run(s, 28, 5, true, 2);
    assert Sep(s, 25, 5, true);
    assert Run(s, 23, 4, true, 2);
    assert Sep(s, 19, 4, false);
    assert Run(s, 17, 3, false, 2);
    assert Sep(s, 14, 3, false);
    assert Run(s, 12, 2, false, 2);
    assert Sep(s, 9, 2, false);
    assert Run(s, 7, 1, false, 2);
    assert Sep(s, 4, 1, false);
    assert Run(s, 2, 0, false, 2);
    assert Run(s, 1, 0, false, 1);
  }

  lemma Line281()
    ensures IsIPv6(("1111:222" + "2:3333::") + ("6666:777" + "7:8888"))
  {
    var s := ("1111:222" + "2:3333::") + ("6666:777" + "7:8888");
    assert Sep(s, 30, 6, true);
    assert Run(s, 28, 5, true, 2);
    assert Sep(s, 25, 5, true);
    assert Run(s, 23, 4, true, 2);
    assert Sep(s, 20, 4, true);
    assert Run(s, 18, 3, true, 2);
    assert Sep(s, 14, 3, false);
    assert Run(s, 12, 2, false, 2);
    assert Sep(s, 9, 2, false);
    assert Run(s, 7, 1, false, 2);
    assert Sep(s, 4, 1, false);
    assert Run(s, 2, 0, false, 2);
    assert Run(s, 1, 0, false, 1);
  }

  lemma Line282()
    ensures IsIPv6(("1111:222" + "2::6666:") + ("7777:888" + "8"))
  {
    var s := ("1111:222" + "2::6666:") + ("7777:888" + "8");
    assert Sep(s, 25, 5, true);
    assert Run(s, 23, 4, true, 2);
    assert Sep(s, 20, 4, true);
    assert Run(s, 18, 3, true, 2);
    assert Sep(s, 15, 3, true);
    assert Run(s, 13, 2, true, 2);
    assert Sep(s, 9, 2, false);
    assert Run(s, 7, 1, false, 2);
    assert Sep(s, 4, 1, false);
    assert Run(s, 2, 0, false, 2);
    assert Run(s, 1, 0, false, 1);
  }

  lemma Line283()
    ensures IsIPv6(("1111::66" + "66:7777:") + "8888")
  {
    var s := ("1111::66" + "66:7777:") + "8888";
    assert Sep(s, 20, 4, true);
    assert Run(s, 18, 3, true, 2);
    assert Sep(s, 15, 3, true);
    assert Run(s, 13, 2, true, 2);
    assert Sep(s, 10, 2, true);
    assert Run(s, 8, 1, true, 2);
    assert Sep(s, 4, 1, false);
    assert Run(s, 2, 0, false, 2);
    assert Run(s, 1, 0, false, 1);
  }

  lemma Line284()
    ensures IsIPv6("::6666:7" + "777:8888")
  {
    var s := "::6666:7" + "777:8888";
    assert Sep(s, 16, 3, true);
    assert Run(s, 14, 2, true, 2);
    assert Sep(s, 11, 2, true);
    assert Run(s, 9, 1, true, 2);
    assert Sep(s, 6, 1, true);
    assert Run(s, 4, 0, true, 2);
    assert Run(s, 3, 0, true, 1);
  }

  lemma Line285()
    ensures IsIPv6((("1111:222" + "2:3333::") + "5555:666") + ("6:7777:8" + "888"))
  {
    var s := (("1111:222" + "2:3333::") + "5555:666") + ("6:7777:8" + "888");
    assert Sep(s, 35, 7, true);
    assert Run(s, 33, 6, true, 2);
    assert Sep(s, 30, 6, true);
    assert Run(s, 28, 5, true, 2);
    assert Sep(s, 25, 5, true);
    assert Run(s, 23, 4, true, 2);
    assert Sep(s, 20, 4, true);
    assert Run(s, 18, 3, true, 2);
    assert Sep(s, 14, 3, false);
    assert Run(s, 12, 2, false, 2);
    assert Sep(s, 9, 2, false);
    assert Run(s, 7, 1, false, 2);
    assert Sep(s, 4, 1, false);
    assert Run(s, 2, 0, false, 2);
    assert Run(s, 1, 0, false, 1);
  }

  lemma Line286()
    ensures IsIPv6(("1111:222" + "2::5555:") + ("6666:777" + "7:8888"))
  {
    var s := ("1111:222" + "2::5555:") + ("6666:777" + "7:8888");
    assert Sep(s, 30, 6, true);
    assert Run(s, 28, 5, true, 2);
    assert Sep(s, 25, 5, true);
    assert Run(s, 23, 4, true, 2);
    assert Sep(s, 20, 4, true);
    assert Run(s, 18, 3, true, 2);
    assert Sep(s, 15, 3, true);
    assert Run(s, 13, 2, true, 2);
    assert Sep(s, 9, 2, false);
    assert Run(s, 7, 1, false, 2);
    assert Sep(s, 4, 1, false);
    assert Run(s, 2, 0, false, 2);
    assert Run(s, 1, 0, false, 1);
  }

  lemma Line287()
    ensures IsIPv6(("1111::55" + "55:6666:") + ("7777:888" + "8"))
  {
    var s := ("1111::55" + "55:6666:") + ("7777:888" + "8");
    assert Sep(s, 25, 5, true);
    assert Run(s, 23, 4, true, 2);
    assert Sep(s, 20, 4, true);
    assert Run(s, 18, 3, true, 2);
    assert Sep(s, 15, 3, true);
    assert Run(s, 13, 2, true, 2);
    assert Sep(s, 10, 2, true);
    assert Run(s, 8, 1, true, 2);
    assert Sep(s, 4, 1, false);
    assert Run(s, 2, 0, false, 2);
    assert Run(s, 1, 0, false, 1);
  }

  lemma Line288()
    ensures IsIPv6(("::5555:6" + "666:7777") + ":8888")
  {
    var s := ("::5555:6" + "666:7777") + ":8888";
    assert Sep(s, 21, 4, true);
    assert Run(s, 19, 3, true, 2);
    assert Sep(s, 16, 3, true);
    assert Run(s, 14, 2, true, 2);
    assert Sep(s, 11, 2, true);
    assert Run(s, 9, 1, true, 2);
    assert Sep(s, 6, 1, true);
    assert Run(s, 4, 0, true, 2);
    assert Run(s, 3, 0, true, 1);
  }

  lemma Line289()
    ensures IsIPv6((("1111:222" + "2::4444:") + "5555:666") + ("6:7777:8" + "888"))
  {
    var s := (("1111:222" + "2::4444:") + "5555:666") + ("6:7777:8" + "888");
    assert Sep(s, 35, 7, true);
    assert Run(s, 33, 6, true, 2);
    assert Sep(s, 30, 6, true);
    assert Run(s, 28, 5, true, 2);
    assert Sep(s, 25, 5, true);
    assert Run(s, 23, 4, true, 2);
    assert Sep(s, 20, 4, true);
    assert Run(s, 18, 3, true, 2);
    assert Sep(s, 15, 3, true);
    assert Run(s, 13, 2, true, 2);
    assert Sep(s, 9, 2, false);
    assert Run(s, 7, 1, false, 2);
    assert Sep(s, 4, 1, false);
    assert Run(s, 2, 0, false, 2);
    assert Run(s, 1, 0, false, 1);
  }

  lemma Line290()
    ensures IsIPv6(("1111::44" + "44:5555:") + ("6666:777" + "7:8888"))
  {
    var s := ("1111::44" + "44:5555:") + ("6666:777" + "7:8888");
    assert Sep(s, 30, 6, true);
    assert Run(s, 28, 5, true, 2);
    assert Sep(s, 25, 5, true);
    assert Run(s, 23, 4, true, 2);
    assert Sep(s, 20, 4, true);
    assert Run(s, 18, 3, true, 2);
    assert Sep(s, 15, 3, true);
    assert Run(s, 13, 2, true, 2);
    assert Sep(s, 10, 2, true);
    assert Run(s, 8, 1, true, 2);
    assert Sep(s, 4, 1, false);
    assert Run(s, 2, 0, false, 2);
    assert Run(s, 1, 0, false, 1);
  }

  lemma Line291()
    ensures IsIPv6(("::4444:5" + "555:6666") + (":7777:88" + "88"))
  {
    var s := ("::4444:5" + "555:6666") + (":7777:88" + "88");
    assert Sep(s, 26, 5, true);
    assert Run(s, 24, 4, true, 2);
    assert Sep(s, 21, 4, true);
    assert Run(s, 19, 3, true, 2);
    assert Sep(s, 16, 3, true);
    assert Run(s, 14, 2, true, 2);
    assert Sep(s, 11, 2, true);
    assert Run(s, 9, 1, true, 2);
    assert Sep(s, 6, 1, true);
    assert Run(s, 4, 0, true, 2);
    assert Run(s, 3, 0, true, 1);
  }

  lemma Line292()
    ensures IsIPv6((("1111::33" + "33:4444:") + "5555:666") + ("6:7777:8" + "888"))
  {
    var s := (("1111::33" + "33:4444:") + "5555:666") + ("6:7777:8" + "888");
    assert Sep(s, 35, 7, true);
    assert Run(s, 33, 6, true, 2);
    assert Sep(s, 30, 6, true);
    assert Run(s, 28, 5, true, 2);
    assert Sep(s, 25, 5, true);
    assert Run(s, 23, 4, true, 2);
    assert Sep(s, 20, 4, true);
    assert Run(s, 18, 3, true, 2);
    assert Sep(s, 15, 3, true);
    assert Run(s, 13, 2, true, 2);
    assert Sep(s, 10, 2, true);
    assert Run(s, 8, 1, true, 2);
    assert Sep(s, 4, 1, false);
    assert Run(s, 2, 0, false, 2);
    assert Run(s, 1, 0, false, 1);
  }

  lemma Line293()
    ensures IsIPv6(("::3333:4" + "444:5555") + (":6666:77" + "77:8888"))
  {
    var s := ("::3333:4" + "444:5555") + (":6666:77" + "77:8888");
    assert Sep(s, 31, 6, true);
    assert Run(s, 29, 5, true, 2);
    assert Sep(s, 26, 5, true);
    assert Run(s, 24, 4, true, 2);
    assert Sep(s, 21, 4, true);
    assert Run(s, 19, 3, true, 2);
    assert Sep(s, 16, 3, true);
    assert Run(s, 14, 2, true, 2);
    assert Sep(s, 11, 2, true);
    assert Run(s, 9, 1, true, 2);
    assert Sep(s, 6, 1, true);
    assert Run(s, 4, 0, true, 2);
    assert Run(s, 3, 0, true, 1);
  }

  lemma Line294()
    ensures IsIPv6((("::2222:3" + "333:4444") + ":5555:66") + ("66:7777:" + "8888"))
  {
    var s := (("::2222:3" + "333:4444") + ":5555:66") + ("66:7777:" + "8888");
    assert Sep(s, 36, 7, true);
    assert Run(s, 34, 6, true, 2);
    assert Sep(s, 31, 6, true);
    assert Run(s, 29, 5, true, 2);
    assert Sep(s, 26, 5, true);
    assert Run(s, 24, 4, true, 2);
    assert Sep(s, 21, 4, true);
    assert Run(s, 19, 3, true, 2);
    assert Sep(s, 16, 3, true);
    assert Run(s, 14, 2, true, 2);
    assert Sep(s, 11, 2, true);
    assert Run(s, 9, 1, true, 2);
    assert Sep(s, 6, 1, true);
    assert Run(s, 4, 0, true, 2);
    assert Run(s, 3, 0, true, 1);
  }

  lemma Line295()
    ensures IsIPv6((("1111:222" + "2:3333:4") + "444:5555") + ((":6666:12" + "3.123.12") + "3.123"))
  {
    var s := (("1111:222" + "2:3333:4") + "444:5555") + ((":6666:12" + "3.123.12") + "3.123");
    assert Octet(s, 45, 3, 3, 123);
    assert Octet(s, 42, 3, 0, 0);
    assert Octet(s, 39, 2, 1, 1);
    assert Octet(s, 36, 1, 2, 12);
    assert Octet(s, 33, 0, 3, 123);
    assert Octet(s, 30, 0, 0, 0);
    assert Run(s, 31, 6, false, 1);
    assert Run(s, 29, 5, false, 4);
    assert Run(s, 26, 5, false, 1);
    assert Run(s, 24, 4, false, 4);
    assert Run(s, 21, 4, false, 1);
    assert Run(s, 19, 3, false, 4);
    assert Run(s, 16, 3, false, 1);
    assert Run(s, 14, 2, false, 4);
    assert Run(s, 11, 2, false, 1);
    assert Run(s, 9, 1, false, 4);
    assert Run(s, 6, 1, false, 1);
    assert Run(s, 4, 0, false, 4);
    assert Run(s, 1, 0, false, 1);
  }

  lemma Line296()
    ensures IsIPv6((("1111:222" + "2:3333:4") + "444:5555") + (("::123.12" + "3.123.12") + "3"))
  {
    var s := (("1111:222" + "2:3333:4") + "444:5555") + (("::123.12" + "3.123.12") + "3");
    assert Octet(s, 41, 3, 3, 123);
    assert Octet(s, 38, 3, 0, 0);
    assert Octet(s, 35, 2, 1, 1);
    assert Octet(s, 32, 1, 2, 12);
    assert Octet(s, 29, 0, 3, 123);
    assert Octet(s, 26, 0, 0, 0);
    assert Run(s, 27, 5, true, 1);
    assert Run(s, 24, 4, false, 4);
    assert Run(s, 21, 4, false, 1);
    assert Run(s, 19, 3, false, 4);
    assert Run(s, 16, 3, false, 1);
    assert Run(s, 14, 2, false, 4);
    assert Run(s, 11, 2, false, 1);
    assert Run(s, 9, 1, false, 4);
    assert Run(s, 6, 1, false, 1);
    assert Run(s, 4, 0, false, 4);
    assert Run(s, 1, 0, false, 1);
  }

  lemma Line297()
    ensures IsIPv6((("1111:222" + "2:3333:4") + "444::123") + (".123.123" + ".123"))
  {
    var s := (("1111:222" + "2:3333:4") + "444::123") + (".123.123" + ".123");
    assert Octet(s, 36, 3, 3, 123);
    assert Octet(s, 33, 3, 0, 0);
    assert Octet(s, 30, 2, 1, 1);
    assert Octet(s, 27, 1, 2, 12);
    assert Octet(s, 24, 0, 3, 123);
    assert Octet(s, 21, 0, 0, 0);
    assert Run(s, 22, 4, true, 1);
    assert Run(s, 19, 3, false, 4);
    assert Run(s, 16, 3, false, 1);
    assert Run(s, 14, 2, false, 4);
    assert Run(s, 11, 2, false, 1);
    assert Run(s, 9, 1, false, 4);
    assert Run(s, 6, 1, false, 1);
    assert Run(s, 4, 0, false, 4);
    assert Run(s, 1, 0, false, 1);
  }

  lemma Line298()
    ensures IsIPv6(("1111:222" + "2:3333::") + ("123.123." + "123.123"))
  {
    var s := ("1111:222" + "2:3333::") + ("123.123." + "123.123");
    assert Octet(s, 31, 3, 3, 123);
    assert Octet(s, 28, 3, 0, 0);
    assert Octet(s, 25, 2, 1, 1);
    assert Octet(s, 22, 1, 2, 12);
    assert Octet(s, 19, 0, 3, 123);
    assert Octet(s, 16, 0, 0, 0);
    assert Run(s, 17, 3, true, 1);
    assert Run(s, 14, 2, false, 4);
    assert Run(s, 11, 2, false, 1);
    assert Run(s, 9, 1, false, 4);
    assert Run(s, 6, 1, false, 1);
    assert Run(s, 4, 0, false, 4);
    assert Run(s, 1, 0, false, 1);
  }

  lemma Line299()
    ensures IsIPv6(("1111:222" + "2::123.1") + ("23.123.1" + "23"))
  {
    var s := ("1111:222" + "2::123.1") + ("23.123.1" + "23");
    assert Octet(s, 26, 3, 3, 123);
    assert Octet(s, 23, 3, 0, 0);
    assert Octet(s, 20, 2, 1, 1);
    assert Octet(s, 17, 1, 2, 12);
    assert Octet(s, 14, 0, 3, 123);
    assert Octet(s, 11, 0, 0, 0);
    assert Run(s, 12, 2, true, 1);
    assert Run(s, 9, 1, false, 4);
    assert Run(s, 6, 1, false, 1);
    assert Run(s, 4, 0, false, 4);
    assert Run(s, 1, 0, false, 1);
  }

  lemma Line300()
    ensures IsIPv6(("1111::12" + "3.123.12") + "3.123")
  {
    var s := ("1111::12" + "3.123.12") + "3.123";
    assert Octet(s, 21, 3, 3, 123);
    assert Octet(s, 18, 3, 0, 0);
    assert Octet(s, 15, 2, 1, 1);
    assert Octet(s, 12, 1, 2, 12);
    assert Octet(s, 9, 0, 3, 123);
    assert Octet(s, 6, 0, 0, 0);
    assert Run(s, 7, 1, true, 1);
    assert Run(s, 4, 0, false, 4);
    assert Run(s, 1, 0, false, 1);
  }

  lemma Line301()
    ensures IsIPv6(("::123.12" + "3.123.12") + "3")
  {
    var s := ("::123.12" + "3.123.12") + "3";
    assert Octet(s, 17, 3, 3, 123);
    assert Octet(s, 14, 3, 0, 0);
    assert Octet(s, 11, 2, 1, 1);
    assert Octet(s, 8, 1, 2, 12);
    assert Octet(s, 5, 0, 3, 123);
    assert Octet(s, 2, 0, 0, 0);
    assert Run(s, 3, 0, true, 1);
  }

  lemma Line302()
    ensures IsIPv6((("1111:222" + "2:3333:4") + "444::666") + (("6:123.12" + "3.123.12") + "3"))
  {
    var s := (("1111:222" + "2:3333:4") + "444::666") + (("6:123.12" + "3.123.12") + "3");
    assert Octet(s, 41, 3, 3, 123);
    assert Octet(s, 38, 3, 0, 0);
    assert Octet(s, 35, 2, 1, 1);
    assert Octet(s, 32, 1, 2, 12);
    assert Octet(s, 29, 0, 3, 123);
    assert Octet(s, 26, 0, 0, 0);
    assert Run(s, 27, 5, true, 1);
    assert Run(s, 25, 4, true, 4);
    assert Run(s, 22, 4, true, 1);
    assert Run(s, 19, 3, false, 4);
    assert Run(s, 16, 3, false, 1);
    assert Run(s, 14, 2, false, 4);
    assert Run(s, 11, 2, false, 1);
    assert Run(s, 9, 1, false, 4);
    assert Run(s, 6, 1, false, 1);
    assert Run(s, 4, 0, false, 4);
    assert Run(s, 1, 0, false, 1);
  }

  lemma Line303()
    ensures IsIPv6((("1111:222" + "2:3333::") + "6666:123") + (".123.123" + ".123"))
  {
    var s := (("1111:222" + "2:3333::") + "6666:123") + (".123.123" + ".123");
    assert Octet(s, 36, 3, 3, 123);
    assert Octet(s, 33, 3, 0, 0);
    assert Octet(s, 30, 2, 1, 1);
    assert Octet(s, 27, 1, 2, 12);
    assert Octet(s, 24, 0, 3, 123);
    assert Octet(s, 21, 0, 0, 0);
    assert Run(s, 22, 4, true, 1);
    assert Run(s, 20, 3, true, 4);
    assert Run(s, 17, 3, true, 1);
    assert Run(s, 14, 2, false, 4);
    assert Run(s, 11, 2, false, 1);
    assert Run(s, 9, 1, false, 4);
    assert Run(s, 6, 1, false, 1);
    assert Run(s, 4, 0, false, 4);
    assert Run(s, 1, 0, false, 1);
  }

  lemma Line304()
    ensures IsIPv6(("1111:222" + "2::6666:") + ("123.123." + "123.123"))
  {
    var s := ("1111:222" + "2::6666:") + ("123.123." + "123.123");
    assert Octet(s, 31, 3, 3, 123);
    assert Octet(s, 28, 3, 0, 0);
    assert Octet(s, 25, 2, 1, 1);
    assert Octet(s, 22, 1, 2, 12);
    assert Octet(s, 19, 0, 3, 123);
    assert Octet(s, 16, 0, 0, 0);
    assert Run(s, 17, 3, true, 1);
    assert Run(s, 15, 2, true, 4);
    assert Run(s, 12, 2, true, 1);
    assert Run(s, 9, 1, false, 4);
    assert Run(s, 6, 1, false, 1);
    assert Run(s, 4, 0, false, 4);
    assert Run(s, 1, 0, false, 1);
  }

  lemma Line305()
    ensures IsIPv6(("1111::66" + "66:123.1") + ("23.123.1" + "23"))
  {
    var s := ("1111::66" + "66:123.1") + ("23.123.1" + "23");
    assert Octet(s, 26, 3, 3, 123);
    assert Octet(s, 23, 3, 0, 0);
    assert Octet(s, 20, 2, 1, 1);
    assert Octet(s, 17, 1, 2, 12);
    assert Octet(s, 14, 0, 3, 123);
    assert Octet(s, 11, 0, 0, 0);
    assert Run(s, 12, 2, true, 1);
    assert Run(s, 10, 1, true, 4);
    assert Run(s, 7, 1, true, 1);
    assert Run(s, 4, 0, false, 4);
    assert Run(s, 1, 0, false, 1);
  }

  lemma Line306()
    ensures IsIPv6(("::6666:1" + "23.123.1") + "23.123")
  {
    var s := ("::6666:1" + "23.123.1") + "23.123";
    assert Octet(s, 22, 3, 3, 123);
    assert Octet(s, 19, 3, 0, 0);
    assert Octet(s, 16, 2, 1, 1);
    assert Octet(s, 13, 1, 2, 12);
    assert Octet(s, 10, 0, 3, 123);
    assert Octet(s, 7, 0, 0, 0);
    assert Run(s, 8, 1, true, 1);
    assert Run(s, 6, 0, true, 4);
    assert Run(s, 3, 0, true, 1);
  }

  lemma Line307()
    ensures IsIPv6((("1111:222" + "2:3333::") + "5555:666") + (("6:123.12" + "3.123.12") + "3"))
  {
    var s := (("1111:222" + "2:3333::") + "5555:666") + (("6:123.12" + "3.123.12") + "3");
    assert Octet(s, 41, 3, 3, 123);
    assert Octet(s, 38, 3, 0, 0);
    assert Octet(s, 35, 2, 1, 1);
    assert Octet(s, 32, 1, 2, 12);
    assert Octet(s, 29, 0, 3, 123);
    assert Octet(s, 26, 0, 0, 0);
    assert Run(s, 27, 5, true, 1);
    assert Run(s, 25, 4, true, 4);
    assert Run(s, 22, 4, true, 1);
    assert Run(s, 20, 3, true, 4);
    assert Run(s, 17, 3, true, 1);
    assert Run(s, 14, 2, false, 4);
    assert Run(s, 11, 2, false, 1);
    assert Run(s, 9, 1, false, 4);
    assert Run(s, 6, 1, false, 1);
    assert Run(s, 4, 0, false, 4);
    assert Run(s, 1, 0, false, 1);
  }

  lemma Line308()
    ensures IsIPv6((("1111:222" + "2::5555:") + "6666:123") + (".123.123" + ".123"))
  {
    var s := (("1111:222" + "2::5555:") + "6666:123") + (".123.123" + ".123");
    assert Octet(s, 36, 3, 3, 123);
    assert Octet(s, 33, 3, 0, 0);
    assert Octet(s, 30, 2, 1, 1);
    assert Octet(s, 27, 1, 2, 12);
    assert Octet(s, 24, 0, 3, 123);
    assert Octet(s, 21, 0, 0, 0);
    assert Run(s, 22, 4, true, 1);
    assert Run(s, 20, 3, true, 4);
    assert Run(s, 17, 3, true, 1);
    assert Run(s, 15, 2, true, 4);
    assert Run(s, 12, 2, true, 1);
    assert Run(s, 9, 1, false, 4);
    assert Run(s, 6, 1, false, 1);
    assert Run(s, 4, 0, false, 4);
    assert Run(s, 1, 0, false, 1);
  }

  lemma Line309()
    ensures IsIPv6(("1111::55" + "55:6666:") + ("123.123." + "123.123"))
  {
    var s := ("1111::55" + "55:6666:") + ("123.123." + "123.123");
    assert Octet(s, 31, 3, 3, 123);
    assert Octet(s, 28, 3, 0, 0);
    assert Octet(s, 25, 2, 1, 1);
    assert Octet(s, 22, 1, 2, 12);
    assert Octet(s, 19, 0, 3, 123);
    assert Octet(s, 16, 0, 0, 0);
    assert Run(s, 17, 3, true, 1);
    assert Run(s, 15, 2, true, 4);
    assert Run(s, 12, 2, true, 1);
    assert Run(s, 10, 1, true, 4);
    assert Run(s, 7, 1, true, 1);
    assert Run(s, 4, 0, false, 4);
    assert Run(s, 1, 0, false, 1);
  }

  lemma Line310()
    ensures IsIPv6(("::5555:6" + "666:123.") + ("123.123." + "123"))
  {
    var s := ("::5555:6" + "666:123.") + ("123.123." + "123");
    assert Octet(s, 27, 3, 3, 123);
    assert Octet(s, 24, 3, 0, 0);
    assert Octet(s, 21, 2, 1, 1);
    assert Octet(s, 18, 1, 2, 12);
    assert Octet(s, 15, 0, 3, 123);
    assert Octet(s, 12, 0, 0, 0);
    assert Run(s, 13, 2, true, 1);
    assert Run(s, 11, 1, true, 4);
    assert Run(s, 8, 1, true, 1);
    assert Run(s, 6, 0, true, 4);
    assert Run(s, 3, 0, true, 1);
  }

  lemma Line311()
    ensures IsIPv6((("1111:222" + "2::4444:") + "5555:666") + (("6:123.12" + "3.123.12") + "3"))
  {
    var s := (("1111:222" + "2::4444:") + "5555:666") + (("6:123.12" + "3.123.12") + "3");
    assert Octet(s, 41, 3, 3, 123);
    assert Octet(s, 38, 3, 0, 0);
    assert Octet(s, 35, 2, 1, 1);
    assert Octet(s, 32, 1, 2, 12);
    assert Octet(s, 29, 0, 3, 123);
    assert Octet(s, 26, 0, 0, 0);
    assert Run(s, 27, 5, true, 1);
    assert Run(s, 25, 4, true, 4);
    assert Run(s, 22, 4, true, 1);
    assert Run(s, 20, 3, true, 4);
    assert Run(s, 17, 3, true, 1);
    assert Run(s, 15, 2, true, 4);
    assert Run(s, 12, 2, true, 1);
    assert Run(s, 9, 1, false, 4);
    assert Run(s, 6, 1, false, 1);
    assert Run(s, 4, 0, false, 4);
    assert Run(s, 1, 0, false, 1);
  }

  lemma Line312()
    ensures IsIPv6((("1111::44" + "44:5555:") + "6666:123") + (".123.123" + ".123"))
  {
    var s := (("1111::44" + "44:5555:") + "6666:123") + (".123.123" + ".123");
    assert Octet(s, 36, 3, 3, 123);
    assert Octet(s, 33, 3, 0, 0);
    assert Octet(s, 30, 2, 1, 1);
    assert Octet(s, 27, 1, 2, 12);
    assert Octet(s, 24, 0, 3, 123);
    assert Octet(s, 21, 0, 0, 0);
    assert Run(s, 22, 4, true, 1);
    assert Run(s, 20, 3, true, 4);
    assert Run(s, 17, 3, true, 1);
    assert Run(s, 15, 2, true, 4);
    assert Run(s, 12, 2, true, 1);
    assert Run(s, 10, 1, true, 4);
    assert Run(s, 7, 1, true, 1);
    assert Run(s, 4, 0, false, 4);
    assert Run(s, 1, 0, false, 1);
  }

  lemma Line313()
    ensures IsIPv6(("::4444:5" + "555:6666") + (":123.123" + ".123.123"))
  {
    var s := ("::4444:5" + "555:6666") + (":123.123" + ".123.123");
    assert Octet(s, 32, 3, 3, 123);
    assert Octet(s, 29, 3, 0, 0);
    assert Octet(s, 26, 2, 1, 1);
    assert Octet(s, 23, 1, 2, 12);
    assert Octet(s, 20, 0, 3, 123);
    assert Octet(s, 17, 0, 0, 0);
    assert Run(s, 18, 3, true, 1);
    assert Run(s, 16, 2, true, 4);
    assert Run(s, 13, 2, true, 1);
    assert Run(s, 11, 1, true, 4);
    assert Run(s, 8, 1, true, 1);
    assert Run(s, 6, 0, true, 4);
    assert Run(s, 3, 0, true, 1);
  }

  lemma Line314()
    ensures IsIPv6((("1111::33" + "33:4444:") + "5555:666") + (("6:123.12" + "3.123.12") + "3"))
  {
    var s := (("1111::33" + "33:4444:") + "5555:666") + (("6:123.12" + "3.123.12") + "3");
    assert Octet(s, 41, 3, 3, 123);
    assert Octet(s, 38, 3, 0, 0);
    assert Octet(s, 35, 2, 1, 1);
    assert Octet(s, 32, 1, 2, 12);
    assert Octet(s, 29, 0, 3, 123);
    assert Octet(s, 26, 0, 0, 0);
    assert Run(s, 27, 5, true, 1);
    assert Run(s, 25, 4, true, 4);
    assert Run(s, 22, 4, true, 1);
    assert Run(s, 20, 3, true, 4);
    assert Run(s, 17, 3, true, 1);
    assert Run(s, 15, 2, true, 4);
    assert Run(s, 12, 2, true, 1);
    assert Run(s, 10, 1, true, 4);
    assert Run(s, 7, 1, true, 1);
    assert Run(s, 4, 0, false, 4);
    assert Run(s, 1, 0, false, 1);
  }

  lemma Line315()
    ensures IsIPv6((("::2222:3" + "333:4444") + ":5555:66") + (("66:123.1" + "23.123.1") + "23"))
  {
    var s := (("::2222:3" + "333:4444") + ":5555:66") + (("66:123.1" + "23.123.1") + "23");
    assert Octet(s, 42, 3, 3, 123);
    assert Octet(s, 39, 3, 0, 0);
    assert Octet(s, 36, 2, 1, 1);
    assert Octet(s, 33, 1, 2, 12);
    assert Octet(s, 30, 0, 3, 123);
    assert Octet(s, 27, 0, 0, 0);
    assert Run(s, 28, 5, true, 1);
    assert Run(s, 26, 4, true, 4);
    assert Run(s, 23, 4, true, 1);
    assert Run(s, 21, 3, true, 4);
    assert Run(s, 18, 3, true, 1);
    assert Run(s, 16, 2, true, 4);
    assert Run(s, 13, 2, true, 1);
    assert Run(s, 11, 1, true, 4);
    assert Run(s, 8, 1, true, 1);
    assert Run(s, 6, 0, true, 4);
    assert Run(s, 3, 0, true, 1);
  }

  lemma Line317()
    ensures IsIPv6("::0:0:0:" + "0:0:0:0")
  {
    var s := "::0:0:0:" + "0:0:0:0";
    assert Sep(s, 15, 7, true);
    assert Sep(s, 13, 6, true);
    assert Sep(s, 11, 5, true);
    assert Sep(s, 9, 4, true);
    assert Sep(s, 7, 3, true);
    assert Sep(s, 5, 2, true);
    assert Sep(s, 3, 1, true);
    assert Run(s, 3, 0, true, 1);
  }

  lemma Line318()
    ensures IsIPv6("::0:0:0:" + "0:0:0")
  {
    var s := "::0:0:0:" + "0:0:0";
    assert Sep(s, 13, 6, true);
    assert Sep(s, 11, 5, true);
    assert Sep(s, 9, 4, true);
    assert Sep(s, 7, 3, true);
    assert Sep(s, 5, 2, true);
    assert Sep(s, 3, 1, true);
    assert Run(s, 3, 0, true, 1);
  }

  lemma Line319()
    ensures IsIPv6("::0:0:0:" + "0:0")
  {
    var s := "::0:0:0:" + "0:0";
    assert Sep(s, 11, 5, true);
    assert Sep(s, 9, 4, true);
    assert Sep(s, 7, 3, true);
    assert Sep(s, 5, 2, true);
    assert Sep(s, 3, 1, true);
    assert Run(s, 3, 0, true, 1);
  }

  lemma Line320()
    ensures IsIPv6("::0:0:0:" + "0")
  {
    var s := "::0:0:0:" + "0";
    assert Sep(s, 9, 4, true);
    assert Sep(s, 7, 3, true);
    assert Sep(s, 5, 2, true);
    assert Sep(s, 3, 1, true);
    assert Run(s, 3, 0, true, 1);
  }

  lemma Line321()
    ensures IsIPv6("::0:0:0")
  {
  }

  lemma Line322()
    ensures IsIPv6("::0:0")
  {
  }

  lemma Line323()
    ensures IsIPv6("::0")
  {
  }

  lemma Line324()
    ensures IsIPv6("0:0:0:0:" + "0:0:0::")
  {
    var s := "0:0:0:0:" + "0:0:0::";
    assert Sep(s, 13, 7, false);
    assert Sep(s, 11, 6, false);
    assert Sep(s, 9, 5, false);
    assert Sep(s, 7, 4, false);
    assert Sep(s, 5, 3, false);
    assert Sep(s, 3, 2, false);
    assert Sep(s, 1, 1, false);
    assert Run(s, 1, 0, false, 1);
  }

  lemma Line325()
    ensures IsIPv6("0:0:0:0:" + "0:0::")
  {
    var s := "0:0:0:0:" + "0:0::";
    assert Sep(s, 11, 6, false);
    assert Sep(s, 9, 5, false);
    assert Sep(s, 7, 4, false);
    assert Sep(s, 5, 3, false);
    assert Sep(s, 3, 2, false);
    assert Sep(s, 1, 1, false);
    assert Run(s, 1, 0, false, 1);
  }

  lemma Line326()
    ensures IsIPv6("0:0:0:0:" + "0::")
  {
    var s := "0:0:0:0:" + "0::";
    assert Sep(s, 9, 5, false);
    assert Sep(s, 7, 4, false);
    assert Sep(s, 5, 3, false);
    assert Sep(s, 3, 2, false);
    assert Sep(s, 1, 1, false);
    assert Run(s, 1, 0, false, 1);
  }

  lemma Line327()
    ensures IsIPv6("0:0:0:0:" + ":")
  {
    var s := "0:0:0:0:" + ":";
    assert Sep(s, 7, 4, false);
    assert Sep(s, 5, 3, false);
    assert Sep(s, 3, 2, false);
    assert Sep(s, 1, 1, false);
    assert Run(s, 1, 0, false, 1);
  }

  lemma Line328()
    ensures IsIPv6("0:0:0::")
  {
  }

  lemma Line329()
    ensures IsIPv6("0:0::")
  {
  }

  lemma Line330()
    ensures IsIPv6("0::")
  {
  }

  lemma Line332()
    ensures !IsIPv6((("XXXX:XXX" + "X:XXXX:X") + "XXX:XXXX") + (":XXXX:XX" + "XX:XXXX"))
  {
    var s := (("XXXX:XXX" + "X:XXXX:X") + "XXX:XXXX") + (":XXXX:XX" + "XX:XXXX");
  }

  lemma Line334()
    ensures !IsIPv6((("1111:222" + "2:3333:4") + "444:5555") + ((":6666:77" + "77:8888:") + "9999"))
  {
    var s := (("1111:222" + "2:3333:4") + "444:5555") + ((":6666:77" + "77:8888:") + "9999");
    assert !Sep(s, 44, 9, false);
    assert !Run(s, 43, 8, false, 3);
    assert !Run(s, 41, 8, false, 1);
    assert !Sep(s, 39, 8, false);
    assert !Run(s, 38, 7, false, 3);
    assert !Run(s, 36, 7, false, 1);
    assert !Sep(s, 34, 7, false);
    assert !Run(s, 33, 6, false, 3);
    assert !Run(s, 31, 6, false, 1);
    assert !Sep(s, 29, 6, false);
    assert !Run(s, 28, 5, false, 3);
    assert !Run(s, 26, 5, false, 1);
    assert !Sep(s, 24, 5, false);
    assert !Run(s, 23, 4, false, 3);
    assert !Run(s, 21, 4, false, 1);
    assert !Sep(s, 19, 4, false);
    assert !Run(s, 18, 3, false, 3);
    assert !Run(s, 16, 3, false, 1);
    assert !Sep(s, 14, 3, false);
    assert !Run(s, 13, 2, false, 3);
    assert !Run(s, 11, 2, false, 1);
    assert !Sep(s, 9, 2, false);
    assert !Run(s, 8, 1, false, 3);
    assert !Run(s, 6, 1, false, 1);
    assert !Sep(s, 4, 1, false);
    assert !Run(s, 3, 0, false, 3);
    assert !Run(s, 1, 0, false, 1);
  }

  lemma Line335()
    ensures !IsIPv6((("1111:222" + "2:3333:4") + "444:5555") + ((":6666:77" + "77:8888:") + ":"))
  {
    var s := (("1111:222" + "2:3333:4") + "444:5555") + ((":6666:77" + "77:8888:") + ":");
    assert !Sep(s, 39, 8, false);
    assert !Run(s, 38, 7, false, 3);
    assert !Run(s, 36, 7, false, 1);
    assert !Sep(s, 34, 7, false);
    assert !Run(s, 33, 6, false, 3);
    assert !Run(s, 31, 6, false, 1);
    assert !Sep(s, 29, 6, false);
    assert !Run(s, 28, 5, false, 3);
    assert !Run(s, 26, 5, false, 1);
    assert !Sep(s, 24, 5, false);
    assert !Run(s, 23, 4, false, 3);
    assert !Run(s, 21, 4, false, 1);
    assert !Sep(s, 19, 4, false);
    assert !Run(s, 18, 3, false, 3);
    assert !Run(s, 16, 3, false, 1);
    assert !Sep(s, 14, 3, false);
    assert !Run(s, 13, 2, false, 3);
    assert !Run(s, 11, 2, false, 1);
    assert !Sep(s, 9, 2, false);
    assert !Run(s, 8, 1, false, 3);
    assert !Run(s, 6, 1, false, 1);
    assert !Sep(s, 4, 1, false);
    assert !Run(s, 3, 0, false, 3);
    assert !Run(s, 1, 0, false, 1);
  }

  lemma Line336()
    ensures !IsIPv6((("::2222:3" + "333:4444") + ":5555:66") + (("66:7777:" + "8888:999") + "9"))
  {
    var s := (("::2222:3" + "333:4444") + ":5555:66") + (("66:7777:" + "8888:999") + "9");
    assert !Sep(s, 41, 8, true);
    assert !Run(s, 40, 7, true, 3);
    assert !Run(s, 38, 7, true, 1);
    assert !Sep(s, 36, 7, true);
    assert !Run(s, 35, 6, true, 3);
    assert !Run(s, 33, 6, true, 1);
    assert !Sep(s, 31, 6, true);
    assert !Run(s, 30, 5, true, 3);
    assert !Run(s, 28, 5, true, 1);
    assert !Sep(s, 26, 5, true);
    assert !Run(s, 25, 4, true, 3);
    assert !Run(s, 23, 4, true, 1);
    assert !Sep(s, 21, 4, true);
    assert !Run(s, 20, 3, true, 3);
    assert !Run(s, 18, 3, true, 1);
    assert !Sep(s, 16, 3, true);
    assert !Run(s, 15, 2, true, 3);
    assert !Run(s, 13, 2, true, 1);
    assert !Sep(s, 11, 2, true);
    assert !Run(s, 10, 1, true, 3);
    assert !Run(s, 8, 1, true, 1);
    assert !Sep(s, 6, 1, true);
    assert !Run(s, 5, 0, true, 3);
    assert !Run(s, 3, 0, true, 1);
  }

  lemma Line338()
    ensures !IsIPv6((("1111:222" + "2:3333:4") + "444:5555") + (":6666:77" + "77"))
  {
    var s := (("1111:222" + "2:3333:4") + "444:5555") + (":6666:77" + "77");
    assert !Sep(s, 34, 7, false);
    assert !Run(s, 33, 6, false, 3);
    assert !Run(s, 31, 6, false, 1);
    assert !Sep(s, 29, 6, false);
    assert !Run(s, 28, 5, false, 3);
    assert !Run(s, 26, 5, false, 1);
    assert !Sep(s, 24, 5, false);
    assert !Run(s, 23, 4, false, 3);
    assert !Run(s, 21, 4, false, 1);
    assert !Sep(s, 19, 4, false);
    assert !Run(s, 18, 3, false, 3);
    assert !Run(s, 16, 3, false, 1);
    assert !Sep(s, 14, 3, false);
    assert !Run(s, 13, 2, false, 3);
    assert !Run(s, 11, 2, false, 1);
    assert !Sep(s, 9, 2, false);
    assert !Run(s, 8, 1, false, 3);
    assert !Run(s, 6, 1, false, 1);
    assert !Sep(s, 4, 1, false);
    assert !Run(s, 3, 0, false, 3);
    assert !Run(s, 1, 0, false, 1);
  }

  lemma Line339()
    ensures !IsIPv6(("1111:222" + "2:3333:4") + ("444:5555" + ":6666"))
  {
    var s := ("1111:222" + "2:3333:4") + ("444:5555" + ":6666");
    assert !Sep(s, 29, 6, false);
    assert !Run(s, 28, 5, false, 3);
    assert !Run(s, 26, 5, false, 1);
    assert !Sep(s, 24, 5, false);
    assert !Run(s, 23, 4, false, 3);
    assert !Run(s, 21, 4, false, 1);
    assert !Sep(s, 19, 4, false);
    assert !Run(s, 18, 3, false, 3);
    assert !Run(s, 16, 3, false, 1);
    assert !Sep(s, 14, 3, false);
    assert !Run(s, 13, 2, false, 3);
    assert !Run(s, 11, 2, false, 1);
    assert !Sep(s, 9, 2, false);
    assert !Run(s, 8, 1, false, 3);
    assert !Run(s, 6, 1, false, 1);
    assert !Sep(s, 4, 1, false);
    assert !Run(s, 3, 0, false, 3);
    assert !Run(s, 1, 0, false, 1);
  }

  lemma Line340()
    ensures !IsIPv6(("1111:222" + "2:3333:4") + "444:5555")
  {
    var s := ("1111:222" + "2:3333:4") + "444:5555";
    assert !Sep(s, 24, 5, false);
    assert !Run(s, 23, 4, false, 3);
    assert !Run(s, 21, 4, false, 1);
    assert !Sep(s, 19, 4, false);
    assert !Run(s, 18, 3, false, 3);
    assert !Run(s, 16, 3, false, 1);
    assert !Sep(s, 14, 3, false);
    assert !Run(s, 13, 2, false, 3);
    assert !Run(s, 11, 2, false, 1);
    assert !Sep(s, 9, 2, false);
    assert !Run(s, 8, 1, false, 3);
    assert !Run(s, 6, 1, false, 1);
    assert !Sep(s, 4, 1, false);
    assert !Run(s, 3, 0, false, 3);
    assert !Run(s, 1, 0, false, 1);
  }

  lemma Line341()
    ensures !IsIPv6(("1111:222" + "2:3333:4") + "444")
  {
    var s := ("1111:222" + "2:3333:4") + "444";
    assert !Sep(s, 19, 4, false);
    assert !Run(s, 18, 3, false, 3);
    assert !Run(s, 16, 3, false, 1);
    assert !Sep(s, 14, 3, false);
    assert !Run(s, 13, 2, false, 3);
    assert !Run(s, 11, 2, false, 1);
    assert !Sep(s, 9, 2, false);
    assert !Run(s, 8, 1, false, 3);
    assert !Run(s, 6, 1, false, 1);
    assert !Sep(s, 4, 1, false);
    assert !Run(s, 3, 0, false, 3);
    assert !Run(s, 1, 0, false, 1);
  }

  lemma Line342()
    ensures !IsIPv6("1111:222" + "2:3333")
  {
    var s := "1111:222" + "2:3333";
    assert !Sep(s, 14, 3, false);
    assert !Run(s, 13, 2, false, 3);
    assert !Run(s, 11, 2, false, 1);
    assert !Sep(s, 9, 2, false);
    assert !Run(s, 8, 1, false, 3);
    assert !Run(s, 6, 1, false, 1);
    assert !Sep(s, 4, 1, false);
    assert !Run(s, 3, 0, false, 3);
    assert !Run(s, 1, 0, false, 1);
  }

  lemma Line343()
    ensures !IsIPv6("1111:222" + "2")
  {
    var s := "1111:222" + "2";
    assert !Sep(s, 9, 2, false);
    assert !Run(s, 8, 1, false, 3);
    assert !Run(s, 6, 1, false, 1);
    assert !Sep(s, 4, 1, false);
    assert !Run(s, 3, 0, false, 3);
    assert !Run(s, 1, 0, false, 1);
  }

  lemma Line344()
    ensures !IsIPv6("1111")
  {
  }

  lemma Line346()
    ensures !IsIPv6((("11112222" + ":3333:44") + "44:5555:") + ("6666:777" + "7:8888"))
  {
    var s := (("11112222" + ":3333:44") + "44:5555:") + ("6666:777" + "7:8888");
    assert !Run(s, 4, 0, false, 4);
    assert !Run(s, 2, 0, false, 2);
    assert !Run(s, 1, 0, false, 1);
  }

  lemma Line347()
    ensures !IsIPv6((("1111:222" + "23333:44") + "44:5555:") + ("6666:777" + "7:8888"))
  {
    var s := (("1111:222" + "23333:44") + "44:5555:") + ("6666:777" + "7:8888");
    assert !Run(s, 9, 1, false, 4);
    assert !Run(s, 7, 1, false, 2);
    assert !Run(s, 5, 1, false, 0);
    assert !Run(s, 4, 0, false, 4);
    assert !Run(s, 2, 0, false, 2);
    assert !Run(s, 1, 0, false, 1);
  }

  lemma Line348()
    ensures !IsIPv6((("1111:222" + "2:333344") + "44:5555:") + ("6666:777" + "7:8888"))
  {
    var s := (("1111:222" + "2:333344") + "44:5555:") + ("6666:777" + "7:8888");
    assert !Run(s, 14, 2, false, 4);
    assert !Run(s, 12, 2, false, 2);
    assert !Run(s, 10, 2, false, 0);
    assert !Run(s, 9, 1, false, 4);
    assert !Run(s, 7, 1, false, 2);
    assert !Run(s, 5, 1, false, 0);
    assert !Run(s, 4, 0, false, 4);
    assert !Run(s, 2, 0, false, 2);
    assert !Run(s, 1, 0, false, 1);
  }

  lemma Line349()
    ensures !IsIPv6((("1111:222" + "2:3333:4") + "4445555:") + ("6666:777" + "7:8888"))
  {
    var s := (("1111:222" + "2:3333:4") + "4445555:") + ("6666:777" + "7:8888");
    assert !Run(s, 19, 3, false, 4);
    assert !Run(s, 17, 3, false, 2);
    assert !Run(s, 15, 3, false, 0);
    assert !Run(s, 14, 2, false, 4);
    assert !Run(s, 12, 2, false, 2);
    assert !Run(s, 10, 2, false, 0);
    assert !Run(s, 9, 1, false, 4);
    assert !Run(s, 7, 1, false, 2);
    assert !Run(s, 5, 1, false, 0);
    assert !Run(s, 4, 0, false, 4);
    assert !Run(s, 2, 0, false, 2);
    assert !Run(s, 1, 0, false, 1);
  }

  lemma Line350()
    ensures !IsIPv6((("1111:222" + "2:3333:4") + "444:5555") + ("6666:777" + "7:8888"))
  {
    var s := (("1111:222" + "2:3333:4") + "444:5555") + ("6666:777" + "7:8888");
    assert !Run(s, 24, 4, false, 4);
    assert !Run(s, 22, 4, false, 2);
    assert !Run(s, 20, 4, false, 0);
    assert !Run(s, 19, 3, false, 4);
    assert !Run(s, 17, 3, false, 2);
    assert !Run(s, 15, 3, false, 0);
    assert !Run(s, 14, 2, false, 4);
    assert !Run(s, 12, 2, false, 2);
    assert !Run(s, 10, 2, false, 0);
    assert !Run(s, 9, 1, false, 4);
    assert !Run(s, 7, 1, false, 2);
    assert !Run(s, 5, 1, false, 0);
    assert !Run(s, 4, 0, false, 4);
    assert !Run(s, 2, 0, false, 2);
    assert !Run(s, 1, 0, false, 1);
  }

  lemma Line351()
    ensures !IsIPv6((("1111:222" + "2:3333:4") + "444:5555") + (":6666777" + "7:8888"))
  {
    var s := (("1111:222" + "2:3333:4") + "444:5555") + (":6666777" + "7:8888");
    assert !Run(s, 29, 5, false, 4);
    assert !Run(s, 27, 5, false, 2);
    assert !Run(s, 25, 5, false, 0);
    assert !Run(s, 24, 4, false, 4);
    assert !Run(s, 22, 4, false, 2);
    assert !Run(s, 20, 4, false, 0);
    assert !Run(s, 19, 3, false, 4);
    assert !Run(s, 17, 3, false, 2);
    assert !Run(s, 15, 3, false, 0);
    assert !Run(s, 14, 2, false, 4);
    assert !Run(s, 12, 2, false, 2);
    assert !Run(s, 10, 2, false, 0);
    assert !Run(s, 9, 1, false, 4);
    assert !Run(s, 7, 1, false, 2);
    assert !Run(s, 5, 1, false, 0);
    assert !Run(s, 4, 0, false, 4);
    assert !Run(s, 2, 0, false, 2);
    assert !Run(s, 1, 0, false, 1);
  }

  lemma Line352()
    ensures !IsIPv6((("1111:222" + "2:3333:4") + "444:5555") + (":6666:77" + "778888"))
  {
    var s := (("1111:222" + "2:3333:4") + "444:5555") + (":6666:77" + "778888");
    assert !Run(s, 34, 6, false, 4);
    assert !Run(s, 32, 6, false, 2);
    assert !Run(s, 30, 6, false, 0);
    assert !Run(s, 29, 5, false, 4);
    assert !Run(s, 27, 5, false, 2);
    assert !Run(s, 25, 5, false, 0);
    assert !Run(s, 24, 4, false, 4);
    assert !Run(s, 22, 4, false, 2);
    assert !Run(s, 20, 4, false, 0);
    assert !Run(s, 19, 3, false, 4);
    assert !Run(s, 17, 3, false, 2);
    assert !Run(s, 15, 3, false, 0);
    assert !Run(s, 14, 2, false, 4);
    assert !Run(s, 12, 2, false, 2);
    assert !Run(s, 10, 2, false, 0);
    assert !Run(s, 9, 1, false, 4);
    assert !Run(s, 7, 1, false, 2);
    assert !Run(s, 5, 1, false, 0);
    assert !Run(s, 4, 0, false, 4);
    assert !Run(s, 2, 0, false, 2);
    assert !Run(s, 1, 0, false, 1);
  }

  lemma Line354()
    ensures !IsIPv6((("1111:222" + "2:3333:4") + "444:5555") + (":6666:77" + "77:8888:"))
  {
    var s := (("1111:222" + "2:3333:4") + "444:5555") + (":6666:77" + "77:8888:");
    assert !Sep(s, 39, 8, false);
    assert !Run(s, 38, 7, false, 3);
    assert !Run(s, 36, 7, false, 1);
    assert !Sep(s, 34, 7, false);
    assert !Run(s, 33, 6, false, 3);
    assert !Run(s, 31, 6, false, 1);
    assert !Sep(s, 29, 6, false);
    assert !Run(s, 28, 5, false, 3);
    assert !Run(s, 26, 5, false, 1);
    assert !Sep(s, 24, 5, false);
    assert !Run(s, 23, 4, false, 3);
    assert !Run(s, 21, 4, false, 1);
    assert !Sep(s, 19, 4, false);
    assert !Run(s, 18, 3, false, 3);
    assert !Run(s, 16, 3, false, 1);
    assert !Sep(s, 14, 3, false);
    assert !Run(s, 13, 2, false, 3);
    assert !Run(s, 11, 2, false, 1);
    assert !Sep(s, 9, 2, false);
    assert !Run(s, 8, 1, false, 3);
    assert !Run(s, 6, 1, false, 1);
    assert !Sep(s, 4, 1, false);
    assert !Run(s, 3, 0, false, 3);
    assert !Run(s, 1, 0, false, 1);
  }

  lemma Line355()
    ensures !IsIPv6((("1111:222" + "2:3333:4") + "444:5555") + (":6666:77" + "77:"))
  {
    var s := (("1111:222" + "2:3333:4") + "444:5555") + (":6666:77" + "77:");
    assert !Sep(s, 34, 7, false);
    assert !Run(s, 33, 6, false, 3);
    assert !Run(s, 31, 6, false, 1);
    assert !Sep(s, 29, 6, false);
    assert !Run(s, 28, 5, false, 3);
    assert !Run(s, 26, 5, false, 1);
    assert !Sep(s, 24, 5, false);
    assert !Run(s, 23, 4, false, 3);
    assert !Run(s, 21, 4, false, 1);
    assert !Sep(s, 19, 4, false);
    assert !Run(s, 18, 3, false, 3);
    assert !Run(s, 16, 3, false, 1);
    assert !Sep(s, 14, 3, false);
    assert !Run(s, 13, 2, false, 3);
    assert !Run(s, 11, 2, false, 1);
    assert !Sep(s, 9, 2, false);
    assert !Run(s, 8, 1, false, 3);
    assert !Run(s, 6, 1, false, 1);
    assert !Sep(s, 4, 1, false);
    assert !Run(s, 3, 0, false, 3);
    assert !Run(s, 1, 0, false, 1);
  }

  lemma Line356()
    ensures !IsIPv6(("1111:222" + "2:3333:4") + ("444:5555" + ":6666:"))
  {
    var s := ("1111:222" + "2:3333:4") + ("444:5555" + ":6666:");
    assert !Sep(s, 29, 6, false);
    assert !Run(s, 28, 5, false, 3);
    assert !Run(s, 26, 5, false, 1);
    assert !Sep(s, 24, 5, false);
    assert !Run(s, 23, 4, false, 3);
    assert !Run(s, 21, 4, false, 1);
    assert !Sep(s, 19, 4, false);
    assert !Run(s, 18, 3, false, 3);
    assert !Run(s, 16, 3, false, 1);
    assert !Sep(s, 14, 3, false);
    assert !Run(s, 13, 2, false, 3);
    assert !Run(s, 11, 2, false, 1);
    assert !Sep(s, 9, 2, false);
    assert !Run(s, 8, 1, false, 3);
    assert !Run(s, 6, 1, false, 1);
    assert !Sep(s, 4, 1, false);
    assert !Run(s, 3, 0, false, 3);
    assert !Run(s, 1, 0, false, 1);
  }

  lemma Line357()
    ensures !IsIPv6(("1111:222" + "2:3333:4") + ("444:5555" + ":"))
  {
    var s := ("1111:222" + "2:3333:4") + ("444:5555" + ":");
    assert !Sep(s, 24, 5, false);
    assert !Run(s, 23, 4, false, 3);
    assert !Run(s, 21, 4, false, 1);
    assert !Sep(s, 19, 4, false);
    assert !Run(s, 18, 3, false, 3);
    assert !Run(s, 16, 3, false, 1);
    assert !Sep(s, 14, 3, false);
    assert !Run(s, 13, 2, false, 3);
    assert !Run(s, 11, 2, false, 1);
    assert !Sep(s, 9, 2, false);
    assert !Run(s, 8, 1, false, 3);
    assert !Run(s, 6, 1, false, 1);
    assert !Sep(s, 4, 1, false);
    assert !Run(s, 3, 0, false, 3);
    assert !Run(s, 1, 0, false, 1);
  }

  lemma Line358()
    ensures !IsIPv6(("1111:222" + "2:3333:4") + "444:")
  {
    var s := ("1111:222" + "2:3333:4") + "444:";
    assert !Sep(s, 19, 4, false);
    assert !Run(s, 18, 3, false, 3);
    assert !Run(s, 16, 3, false, 1);
    assert !Sep(s, 14, 3, false);
    assert !Run(s, 13, 2, false, 3);
    assert !Run(s, 11, 2, false, 1);
    assert !Sep(s, 9, 2, false);
    assert !Run(s, 8, 1, false, 3);
    assert !Run(s, 6, 1, false, 1);
    assert !Sep(s, 4, 1, false);
    assert !Run(s, 3, 0, false, 3);
    assert !Run(s, 1, 0, false, 1);
  }

  lemma Line359()
    ensures !IsIPv6("1111:222" + "2:3333:")
  {
    var s := "1111:222" + "2:3333:";
    assert !Sep(s, 14, 3, false);
    assert !Run(s, 13, 2, false, 3);
    assert !Run(s, 11, 2, false, 1);
    assert !Sep(s, 9, 2, false);
    assert !Run(s, 8, 1, false, 3);
    assert !Run(s, 6, 1, false, 1);
    assert !Sep(s, 4, 1, false);
    assert !Run(s, 3, 0, false, 3);
    assert !Run(s, 1, 0, false, 1);
  }

  lemma Line360()
    ensures !IsIPv6("1111:222" + "2:")
  {
    var s := "1111:222" + "2:";
    assert !Sep(s, 9, 2, false);
    assert !Run(s, 8, 1, false, 3);
    assert !Run(s, 6, 1, false, 1);
    assert !Sep(s, 4, 1, false);
    assert !Run(s, 3, 0, false, 3);
    assert !Run(s, 1, 0, false, 1);
  }

  lemma Line361()
    ensures !IsIPv6("1111:")
  {
  }

  lemma Line362()
    ensures !IsIPv6(":")
  {
  }

  lemma Line363()
    ensures !IsIPv6(":8888")
  {
  }

  lemma Line364()
    ensures !IsIPv6(":7777:88" + "88")
  {
    var s := ":7777:88" + "88";
  }

  lemma Line365()
    ensures !IsIPv6(":6666:77" + "77:8888")
  {
    var s := ":6666:77" + "77:8888";
  }

  lemma Line366()
    ensures !IsIPv6((":5555:66" + "66:7777:") + "8888")
  {
    var s := (":5555:66" + "66:7777:") + "8888";
  }

  lemma Line367()
    ensures !IsIPv6((":4444:55" + "55:6666:") + ("7777:888" + "8"))
  {
    var s := (":4444:55" + "55:6666:") + ("7777:888" + "8");
  }

  lemma Line368()
    ensures !IsIPv6((":3333:44" + "44:5555:") + ("6666:777" + "7:8888"))
  {
    var s := (":3333:44" + "44:5555:") + ("6666:777" + "7:8888");
  }

  lemma Line369()
    ensures !IsIPv6(((":2222:33" + "33:4444:") + "5555:666") + ("6:7777:8" + "888"))
  {
    var s := ((":2222:33" + "33:4444:") + "5555:666") + ("6:7777:8" + "888");
  }

  lemma Line370()
    ensures !IsIPv6(((":1111:22" + "22:3333:") + "4444:555") + ("5:6666:7" + "777:8888"))
  {
    var s := ((":1111:22" + "22:3333:") + "4444:555") + ("5:6666:7" + "777:8888");
  }

  lemma Line372()
    ensures !IsIPv6(((":::2222:" + "3333:444") + "4:5555:6") + ("666:7777" + ":8888"))
  {
    var s := ((":::2222:" + "3333:444") + "4:5555:6") + ("666:7777" + ":8888");
  }

  lemma Line373()
    ensures !IsIPv6((("1111:::3" + "333:4444") + ":5555:66") + ("66:7777:" + "8888"))
  {
    var s := (("1111:::3" + "333:4444") + ":5555:66") + ("66:7777:" + "8888");
    assert !Run(s, 6, 1, true, 0);
    assert !Run(s, 4, 0, false, 4);
    assert !Run(s, 2, 0, false, 2);
    assert !Run(s, 1, 0, false, 1);
  }

  lemma Line374()
    ensures !IsIPv6((("1111:222" + "2:::4444") + ":5555:66") + ("66:7777:" + "8888"))
  {
    var s := (("1111:222" + "2:::4444") + ":5555:66") + ("66:7777:" + "8888");
    assert !Run(s, 11, 2, true, 0);
    assert !Run(s, 9, 1, false, 4);
    assert !Run(s, 7, 1, false, 2);
    assert !Run(s, 5, 1, false, 0);
    assert !Run(s, 4, 0, false, 4);
    assert !Run(s, 2, 0, false, 2);
    assert !Run(s, 1, 0, false, 1);
  }

  lemma Line375()
    ensures !IsIPv6((("1111:222" + "2:3333::") + ":5555:66") + ("66:7777:" + "8888"))
  {
    var s := (("1111:222" + "2:3333::") + ":5555:66") + ("66:7777:" + "8888");
    assert !Run(s, 16, 3, true, 0);
    assert !Run(s, 14, 2, false, 4);
    assert !Run(s, 12, 2, false, 2);
    assert !Run(s, 10, 2, false, 0);
    assert !Run(s, 9, 1, false, 4);
    assert !Run(s, 7, 1, false, 2);
    assert !Run(s, 5, 1, false, 0);
    assert !Run(s, 4, 0, false, 4);
    assert !Run(s, 2, 0, false, 2);
    assert !Run(s, 1, 0, false, 1);
  }

  lemma Line376()
    ensures !IsIPv6((("1111:222" + "2:3333:4") + "444:::66") + ("66:7777:" + "8888"))
  {
    var s := (("1111:222" + "2:3333:4") + "444:::66") + ("66:7777:" + "8888");
    assert !Run(s, 21, 4, true, 0);
    assert !Run(s, 19, 3, false, 4);
    assert !Run(s, 17, 3, false, 2);
    assert !Run(s, 15, 3, false, 0);
    assert !Run(s, 14, 2, false, 4);
    assert !Run(s, 12, 2, false, 2);
    assert !Run(s, 10, 2, false, 0);
    assert !Run(s, 9, 1, false, 4);
    assert !Run(s, 7, 1, false, 2);
    assert !Run(s, 5, 1, false, 0);
    assert !Run(s, 4, 0, false, 4);
    assert !Run(s, 2, 0, false, 2);
    assert !Run(s, 1, 0, false, 1);
  }

  lemma Line377()
    ensures !IsIPv6((("1111:222" + "2:3333:4") + "444:5555") + (":::7777:" + "8888"))
  {
    var s := (("1111:222" + "2:3333:4") + "444:5555") + (":::7777:" + "8888");
    assert !Run(s, 26, 5, true, 0);
    assert !Run(s, 24, 4, false, 4);
    assert !Run(s, 22, 4, false, 2);
    assert !Run(s, 20, 4, false, 0);
    assert !Run(s, 19, 3, false, 4);
    assert !Run(s, 17, 3, false, 2);
    assert !Run(s, 15, 3, false, 0);
    assert !Run(s, 14, 2, false, 4);
    assert !Run(s, 12, 2, false, 2);
    assert !Run(s, 10, 2, false, 0);
    assert !Run(s, 9, 1, false, 4);
    assert !Run(s, 7, 1, false, 2);
    assert !Run(s, 5, 1, false, 0);
    assert !Run(s, 4, 0, false, 4);
    assert !Run(s, 2, 0, false, 2);
    assert !Run(s, 1, 0, false, 1);
  }

  lemma Line378()
    ensures !IsIPv6((("1111:222" + "2:3333:4") + "444:5555") + (":6666:::" + "8888"))
  {
    var s := (("1111:222" + "2:3333:4") + "444:5555") + (":6666:::" + "8888");
    assert !Run(s, 31, 6, true, 0);
    assert !Run(s, 29, 5, false, 4);
    assert !Run(s, 27, 5, false, 2);
    assert !Run(s, 25, 5, false, 0);
    assert !Run(s, 24, 4, false, 4);
    assert !Run(s, 22, 4, false, 2);
    assert !Run(s, 20, 4, false, 0);
    assert !Run(s, 19, 3, false, 4);
    assert !Run(s, 17, 3, false, 2);
    assert !Run(s, 15, 3, false, 0);
    assert !Run(s, 14, 2, false, 4);
    assert !Run(s, 12, 2, false, 2);
    assert !Run(s, 10, 2, false, 0);
    assert !Run(s, 9, 1, false, 4);
    assert !Run(s, 7, 1, false, 2);
    assert !Run(s, 5, 1, false, 0);
    assert !Run(s, 4, 0, false, 4);
    assert !Run(s, 2, 0, false, 2);
    assert !Run(s, 1, 0, false, 1);
  }

  lemma Line379()
    ensures !IsIPv6((("1111:222" + "2:3333:4") + "444:5555") + (":6666:77" + "77:::"))
  {
    var s := (("1111:222" + "2:3333:4") + "444:5555") + (":6666:77" + "77:::");
    assert !Run(s, 36, 7, true, 0);
    assert !Run(s, 34, 6, false, 4);
    assert !Run(s, 32, 6, false, 2);
    assert !Run(s, 30, 6, false, 0);
    assert !Run(s, 29, 5, false, 4);
    assert !Run(s, 27, 5, false, 2);
    assert !Run(s, 25, 5, false, 0);
    assert !Run(s, 24, 4, false, 4);
    assert !Run(s, 22, 4, false, 2);
    assert !Run(s, 20, 4, false, 0);
    assert !Run(s, 19, 3, false, 4);
    assert !Run(s, 17, 3, false, 2);
    assert !Run(s, 15, 3, false, 0);
    assert !Run(s, 14, 2, false, 4);
    assert !Run(s, 12, 2, false, 2);
    assert !Run(s, 10, 2, false, 0);
    assert !Run(s, 9, 1, false, 4);
    assert !Run(s, 7, 1, false, 2);
    assert !Run(s, 5, 1, false, 0);
    assert !Run(s, 4, 0, false, 4);
    assert !Run(s, 2, 0, false, 2);
    assert !Run(s, 1, 0, false, 1);
  }

  lemma Line381()
    ensures !IsIPv6(("::2222::" + "4444:555") + ("5:6666:7" + "777:8888"))
  {
    var s := ("::2222::" + "4444:555") + ("5:6666:7" + "777:8888");
    assert !Sep(s, 6, 1, true);
    assert !Run(s, 5, 0, true, 3);
    assert !Run(s, 3, 0, true, 1);
  }

  lemma Line382()
    ensures !IsIPv6(("::2222:3" + "333::555") + ("5:6666:7" + "777:8888"))
  {
    var s := ("::2222:3" + "333::555") + ("5:6666:7" + "777:8888");
    assert !Sep(s, 11, 2, true);
    assert !Run(s, 10, 1, true, 3);
    assert !Run(s, 8, 1, true, 1);
    assert !Sep(s, 6, 1, true);
    assert !Run(s, 5, 0, true, 3);
    assert !Run(s, 3, 0, true, 1);
  }

  lemma Line383()
    ensures !IsIPv6(("::2222:3" + "333:4444") + ("::6666:7" + "777:8888"))
  {
    var s := ("::2222:3" + "333:4444") + ("::6666:7" + "777:8888");
    assert !Sep(s, 16, 3, true);
    assert !Run(s, 15, 2, true, 3);
    assert !Run(s, 13, 2, true, 1);
    assert !Sep(s, 11, 2, true);
    assert !Run(s, 10, 1, true, 3);
    assert !Run(s, 8, 1, true, 1);
    assert !Sep(s, 6, 1, true);
    assert !Run(s, 5, 0, true, 3);
    assert !Run(s, 3, 0, true, 1);
  }

  lemma Line384()
    ensures !IsIPv6(("::2222:3" + "333:4444") + (":5555::7" + "777:8888"))
  {
    var s := ("::2222:3" + "333:4444") + (":5555::7" + "777:8888");
    assert !Sep(s, 21, 4, true);
    assert !Run(s, 20, 3, true, 3);
    assert !Run(s, 18, 3, true, 1);
    assert !Sep(s, 16, 3, true);
    assert !Run(s, 15, 2, true, 3);
    assert !Run(s, 13, 2, true, 1);
    assert !Sep(s, 11, 2, true);
    assert !Run(s, 10, 1, true, 3);
    assert !Run(s, 8, 1, true, 1);
    assert !Sep(s, 6, 1, true);
    assert !Run(s, 5, 0, true, 3);
    assert !Run(s, 3, 0, true, 1);
  }

  lemma Line385()
    ensures !IsIPv6(("::2222:3" + "333:4444") + (":5555:77" + "77::8888"))
  {
    var s := ("::2222:3" + "333:4444") + (":5555:77" + "77::8888");
    assert !Sep(s, 26, 5, true);
    assert !Run(s, 25, 4, true, 3);
    assert !Run(s, 23, 4, true, 1);
    assert !Sep(s, 21, 4, true);
    assert !Run(s, 20, 3, true, 3);
    assert !Run(s, 18, 3, true, 1);
    assert !Sep(s, 16, 3, true);
    assert !Run(s, 15, 2, true, 3);
    assert !Run(s, 13, 2, true, 1);
    assert !Sep(s, 11, 2, true);
    assert !Run(s, 10, 1, true, 3);
    assert !Run(s, 8, 1, true, 1);
    assert !Sep(s, 6, 1, true);
    assert !Run(s, 5, 0, true, 3);
    assert !Run(s, 3, 0, true, 1);
  }

  lemma Line386()
    ensures !IsIPv6((("::2222:3" + "333:4444") + ":5555:77") + ("77:8888:" + ":"))
  {
    var s := (("::2222:3" + "333:4444") + ":5555:77") + ("77:8888:" + ":");
    assert !Sep(s, 31, 6, true);
    assert !Run(s, 30, 5, true, 3);
    assert !Run(s, 28, 5, true, 1);
    assert !Sep(s, 26, 5, true);
    assert !Run(s, 25, 4, true, 3);
    assert !Run(s, 23, 4, true, 1);
    assert !Sep(s, 21, 4, true);
    assert !Run(s, 20, 3, true, 3);
    assert !Run(s, 18, 3, true, 1);
    assert !Sep(s, 16, 3, true);
    assert !Run(s, 15, 2, true, 3);
    assert !Run(s, 13, 2, true, 1);
    assert !Sep(s, 11, 2, true);
    assert !Run(s, 10, 1, true, 3);
    assert !Run(s, 8, 1, true, 1);
    assert !Sep(s, 6, 1, true);
    assert !Run(s, 5, 0, true, 3);
    assert !Run(s, 3, 0, true, 1);
  }

  lemma Line388()
    ensures !IsIPv6(("1111::33" + "33::5555") + (":6666:77" + "77:8888"))
  {
    var s := ("1111::33" + "33::5555") + (":6666:77" + "77:8888");
    assert !Sep(s, 10, 2, true);
    assert !Run(s, 9, 1, true, 3);
    assert !Run(s, 7, 1, true, 1);
    assert !Sep(s, 4, 1, false);
    assert !Run(s, 3, 0, false, 3);
    assert !Run(s, 1, 0, false, 1);
  }

  lemma Line389()
    ensures !IsIPv6(("1111::33" + "33:4444:") + (":6666:77" + "77:8888"))
  {
    var s := ("1111::33" + "33:4444:") + (":6666:77" + "77:8888");
    assert !Sep(s, 15, 3, true);
    assert !Run(s, 14, 2, true, 3);
    assert !Run(s, 12, 2, true, 1);
    assert !Sep(s, 10, 2, true);
    assert !Run(s, 9, 1, true, 3);
    assert !Run(s, 7, 1, true, 1);
    assert !Sep(s, 4, 1, false);
    assert !Run(s, 3, 0, false, 3);
    assert !Run(s, 1, 0, false, 1);
  }

  lemma Line390()
    ensures !IsIPv6(("1111::33" + "33:4444:") + ("5555::77" + "77:8888"))
  {
    var s := ("1111::33" + "33:4444:") + ("5555::77" + "77:8888");
    assert !Sep(s, 20, 4, true);
    assert !Run(s, 19, 3, true, 3);
    assert !Run(s, 17, 3, true, 1);
    assert !Sep(s, 15, 3, true);
    assert !Run(s, 14, 2, true, 3);
    assert !Run(s, 12, 2, true, 1);
    assert !Sep(s, 10, 2, true);
    assert !Run(s, 9, 1, true, 3);
    assert !Run(s, 7, 1, true, 1);
    assert !Sep(s, 4, 1, false);
    assert !Run(s, 3, 0, false, 3);
    assert !Run(s, 1, 0, false, 1);
  }

  lemma Line391()
    ensures !IsIPv6(("1111::33" + "33:4444:") + ("5555:666" + "6::8888"))
  {
    var s := ("1111::33" + "33:4444:") + ("5555:666" + "6::8888");
    assert !Sep(s, 25, 5, true);
    assert !Run(s, 24, 4, true, 3);
    assert !Run(s, 22, 4, true, 1);
    assert !Sep(s, 20, 4, true);
    assert !Run(s, 19, 3, true, 3);
    assert !Run(s, 17, 3, true, 1);
    assert !Sep(s, 15, 3, true);
    assert !Run(s, 14, 2, true, 3);
    assert !Run(s, 12, 2, true, 1);
    assert !Sep(s, 10, 2, true);
    assert !Run(s, 9, 1, true, 3);
    assert !Run(s, 7, 1, true, 1);
    assert !Sep(s, 4, 1, false);
    assert !Run(s, 3, 0, false, 3);
    assert !Run(s, 1, 0, false, 1);
  }

  lemma Line392()
    ensures !IsIPv6(("1111::33" + "33:4444:") + ("5555:666" + "6:7777::"))
  {
    var s := ("1111::33" + "33:4444:") + ("5555:666" + "6:7777::");
    assert !Sep(s, 30, 6, true);
    assert !Run(s, 29, 5, true, 3);
    assert !Run(s, 27, 5, true, 1);
    assert !Sep(s, 25, 5, true);
    assert !Run(s, 24, 4, true, 3);
    assert !Run(s, 22, 4, true, 1);
    assert !Sep(s, 20, 4, true);
    assert !Run(s, 19, 3, true, 3);
    assert !Run(s, 17, 3, true, 1);
    assert !Sep(s, 15, 3, true);
    assert !Run(s, 14, 2, true, 3);
    assert !Run(s, 12, 2, true, 1);
    assert !Sep(s, 10, 2, true);
    assert !Run(s, 9, 1, true, 3);
    assert !Run(s, 7, 1, true, 1);
    assert !Sep(s, 4, 1, false);
    assert !Run(s, 3, 0, false, 3);
    assert !Run(s, 1, 0, false, 1);
  }

  lemma Line394()
    ensures !IsIPv6(("1111:222" + "2::4444:") + (":6666:77" + "77:8888"))
  {
    var s := ("1111:222" + "2::4444:") + (":6666:77" + "77:8888");
    assert !Sep(s, 15, 3, true);
    assert !Run(s, 14, 2, true, 3);
    assert !Run(s, 12, 2, true, 1);
    assert !Sep(s, 9, 2, false);
    assert !Run(s, 8, 1, false, 3);
    assert !Run(s, 6, 1, false, 1);
    assert !Sep(s, 4, 1, false);
    assert !Run(s, 3, 0, false, 3);
    assert !Run(s, 1, 0, false, 1);
  }

  lemma Line395()
    ensures !IsIPv6(("1111:222" + "2::4444:") + ("5555::77" + "77:8888"))
  {
    var s := ("1111:222" + "2::4444:") + ("5555::77" + "77:8888");
    assert !Sep(s, 20, 4, true);
    assert !Run(s, 19, 3, true, 3);
    assert !Run(s, 17, 3, true, 1);
    assert !Sep(s, 15, 3, true);
    assert !Run(s, 14, 2, true, 3);
    assert !Run(s, 12, 2, true, 1);
    assert !Sep(s, 9, 2, false);
    assert !Run(s, 8, 1, false, 3);
    assert !Run(s, 6, 1, false, 1);
    assert !Sep(s, 4, 1, false);
    assert !Run(s, 3, 0, false, 3);
    assert !Run(s, 1, 0, false, 1);
  }

  lemma Line396()
    ensures !IsIPv6(("1111:222" + "2::4444:") + ("5555:666" + "6::8888"))
  {
    var s := ("1111:222" + "2::4444:") + ("5555:666" + "6::8888");
    assert !Sep(s, 25, 5, true);
    assert !Run(s, 24, 4, true, 3);
    assert !Run(s, 22, 4, true, 1);
    assert !Sep(s, 20, 4, true);
    assert !Run(s, 19, 3, true, 3);
    assert !Run(s, 17, 3, true, 1);
    assert !Sep(s, 15, 3, true);
    assert !Run(s, 14, 2, true, 3);
    assert !Run(s, 12, 2, true, 1);
    assert !Sep(s, 9, 2, false);
    assert !Run(s, 8, 1, false, 3);
    assert !Run(s, 6, 1, false, 1);
    assert !Sep(s, 4, 1, false);
    assert !Run(s, 3, 0, false, 3);
    assert !Run(s, 1, 0, false, 1);
  }

  lemma Line397()
    ensures !IsIPv6(("1111:222" + "2::4444:") + ("5555:666" + "6:7777::"))
  {
    var s := ("1111:222" + "2::4444:") + ("5555:666" + "6:7777::");
    assert !Sep(s, 30, 6, true);
    assert !Run(s, 29, 5, true, 3);
    assert !Run(s, 27, 5, true, 1);
    assert !Sep(s, 25, 5, true);
    assert !Run(s, 24, 4, true, 3);
    assert !Run(s, 22, 4, true, 1);
    assert !Sep(s, 20, 4, true);
    assert !Run(s, 19, 3, true, 3);
    assert !Run(s, 17, 3, true, 1);
    assert !Sep(s, 15, 3, true);
    assert !Run(s, 14, 2, true, 3);
    assert !Run(s, 12, 2, true, 1);
    assert !Sep(s, 9, 2, false);
    assert !Run(s, 8, 1, false, 3);
    assert !Run(s, 6, 1, false, 1);
    assert !Sep(s, 4, 1, false);
    assert !Run(s, 3, 0, false, 3);
    assert !Run(s, 1, 0, false, 1);
  }

  lemma Line399()
    ensures !IsIPv6(("1111:222" + "2:3333::") + ("5555::77" + "77:8888"))
  {
    var s := ("1111:222" + "2:3333::") + ("5555::77" + "77:8888");
    assert !Sep(s, 20, 4, true);
    assert !Run(s, 19, 3, true, 3);
    assert !Run(s, 17, 3, true, 1);
    assert !Sep(s, 14, 3, false);
    assert !Run(s, 13, 2, false, 3);
    assert !Run(s, 11, 2, false, 1);
    assert !Sep(s, 9, 2, false);
    assert !Run(s, 8, 1, false, 3);
    assert !Run(s, 6, 1, false, 1);
    assert !Sep(s, 4, 1, false);
    assert !Run(s, 3, 0, false, 3);
    assert !Run(s, 1, 0, false, 1);
  }

  lemma Line400()
    ensures !IsIPv6(("1111:222" + "2:3333::") + ("5555:666" + "6::8888"))
  {
    var s := ("1111:222" + "2:3333::") + ("5555:666" + "6::8888");
    assert !Sep(s, 25, 5, true);
    assert !Run(s, 24, 4, true, 3);
    assert !Run(s, 22, 4, true, 1);
    assert !Sep(s, 20, 4, true);
    assert !Run(s, 19, 3, true, 3);
    assert !Run(s, 17, 3, true, 1);
    assert !Sep(s, 14, 3, false);
    assert !Run(s, 13, 2, false, 3);
    assert !Run(s, 11, 2, false, 1);
    assert !Sep(s, 9, 2, false);
    assert !Run(s, 8, 1, false, 3);
    assert !Run(s, 6, 1, false, 1);
    assert !Sep(s, 4, 1, false);
    assert !Run(s, 3, 0, false, 3);
    assert !Run(s, 1, 0, false, 1);
  }

  lemma Line401()
    ensures !IsIPv6(("1111:222" + "2:3333::") + ("5555:666" + "6:7777::"))
  {
    var s := ("1111:222" + "2:3333::") + ("5555:666" + "6:7777::");
    assert !Sep(s, 30, 6, true);
    assert !Run(s, 29, 5, true, 3);
    assert !Run(s, 27, 5, true, 1);
    assert !Sep(s, 25, 5, true);
    assert !Run(s, 24, 4, true, 3);
    assert !Run(s, 22, 4, true, 1);
    assert !Sep(s, 20, 4, true);
    assert !Run(s, 19, 3, true, 3);
    assert !Run(s, 17, 3, true, 1);
    assert !Sep(s, 14, 3, false);
    assert !Run(s, 13, 2, false, 3);
    assert !Run(s, 11, 2, false, 1);
    assert !Sep(s, 9, 2, false);
    assert !Run(s, 8, 1, false, 3);
    assert !Run(s, 6, 1, false, 1);
    assert !Sep(s, 4, 1, false);
    assert !Run(s, 3, 0, false, 3);
    assert !Run(s, 1, 0, false, 1);
  }

  lemma Line403()
    ensures !IsIPv6(("1111:222" + "2:3333:4") + ("444::666" + "6::8888"))
  {
    var s := ("1111:222" + "2:3333:4") + ("444::666" + "6::8888");
    assert !Sep(s, 25, 5, true);
    assert !Run(s, 24, 4, true, 3);
    assert !Run(s, 22, 4, true, 1);
    assert !Sep(s, 19, 4, false);
    assert !Run(s, 18, 3, false, 3);
    assert !Run(s, 16, 3, false, 1);
    assert !Sep(s, 14, 3, false);
    assert !Run(s, 13, 2, false, 3);
    assert !Run(s, 11, 2, false, 1);
    assert !Sep(s, 9, 2, false);
    assert !Run(s, 8, 1, false, 3);
    assert !Run(s, 6, 1, false, 1);
    assert !Sep(s, 4, 1, false);
    assert !Run(s, 3, 0, false, 3);
    assert !Run(s, 1, 0, false, 1);
  }

  lemma Line404()
    ensures !IsIPv6(("1111:222" + "2:3333:4") + ("444::666" + "6:7777::"))
  {
    var s := ("1111:222" + "2:3333:4") + ("444::666" + "6:7777::");
    assert !Sep(s, 30, 6, true);
    assert !Run(s, 29, 5, true, 3);
    assert !Run(s, 27, 5, true, 1);
    assert !Sep(s, 25, 5, true);
    assert !Run(s, 24, 4, true, 3);
    assert !Run(s, 22, 4, true, 1);
    assert !Sep(s, 19, 4, false);
    assert !Run(s, 18, 3, false, 3);
    assert !Run(s, 16, 3, false, 1);
    assert !Sep(s, 14, 3, false);
    assert !Run(s, 13, 2, false, 3);
    assert !Run(s, 11, 2, false, 1);
    assert !Sep(s, 9, 2, false);
    assert !Run(s, 8, 1, false, 3);
    assert !Run(s, 6, 1, false, 1);
    assert !Sep(s, 4, 1, false);
    assert !Run(s, 3, 0, false, 3);
    assert !Run(s, 1, 0, false, 1);
  }

  lemma Line406()
    ensures !IsIPv6(("1111:222" + "2:3333:4") + ("444:5555" + "::7777::"))
  {
    var s := ("1111:222" + "2:3333:4") + ("444:5555" + "::7777::");
    assert !Sep(s, 30, 6, true);
    assert !Run(s, 29, 5, true, 3);
    assert !Run(s, 27, 5, true, 1);
    assert !Sep(s, 24, 5, false);
    assert !Run(s, 23, 4, false, 3);
    assert !Run(s, 21, 4, false, 1);
    assert !Sep(s, 19, 4, false);
    assert !Run(s, 18, 3, false, 3);
    assert !Run(s, 16, 3, false, 1);
    assert !Sep(s, 14, 3, false);
    assert !Run(s, 13, 2, false, 3);
    assert !Run(s, 11, 2, false, 1);
    assert !Sep(s, 9, 2, false);
    assert !Run(s, 8, 1, false, 3);
    assert !Run(s, 6, 1, false, 1);
    assert !Sep(s, 4, 1, false);
    assert !Run(s, 3, 0, false, 3);
    assert !Run(s, 1, 0, false, 1);
  }

  lemma Line408()
    ensures !IsIPv6((("1111:222" + "2:3333:4") + "444:5555") + ((":6666:77" + "77:8888:") + "1.2.3.4"))
  {
    var s := (("1111:222" + "2:3333:4") + "444:5555") + ((":6666:77" + "77:8888:") + "1.2.3.4");
    assert !Run(s, 41, 8, false, 1);
    assert !Sep(s, 39, 8, false);
    assert !Run(s, 38, 7, false, 3);
    assert !Run(s, 36, 7, false, 1);
    assert !Sep(s, 34, 7, false);
    assert !Run(s, 33, 6, false, 3);
    assert !Run(s, 31, 6, false, 1);
    assert !Sep(s, 29, 6, false);
    assert !Run(s, 28, 5, false, 3);
    assert !Run(s, 26, 5, false, 1);
    assert !Sep(s, 24, 5, false);
    assert !Run(s, 23, 4, false, 3);
    assert !Run(s, 21, 4, false, 1);
    assert !Sep(s, 19, 4, false);
    assert !Run(s, 18, 3, false, 3);
    assert !Run(s, 16, 3, false, 1);
    assert !Sep(s, 14, 3, false);
    assert !Run(s, 13, 2, false, 3);
    assert !Run(s, 11, 2, false, 1);
    assert !Sep(s, 9, 2, false);
    assert !Run(s, 8, 1, false, 3);
    assert !Run(s, 6, 1, false, 1);
    assert !Sep(s, 4, 1, false);
    assert !Run(s, 3, 0, false, 3);
    assert !Run(s, 1, 0, false, 1);
  }

  lemma Line409()
    ensures !IsIPv6((("1111:222" + "2:3333:4") + "444:5555") + ((":6666:77" + "77:1.2.3") + ".4"))
  {
    var s := (("1111:222" + "2:3333:4") + "444:5555") + ((":6666:77" + "77:1.2.3") + ".4");
    assert !Run(s, 36, 7, false, 1);
    assert !Sep(s, 34, 7, false);
    assert !Run(s, 33, 6, false, 3);
    assert !Run(s, 31, 6, false, 1);
    assert !Sep(s, 29, 6, false);
    assert !Run(s, 28, 5, false, 3);
    assert !Run(s, 26, 5, false, 1);
    assert !Sep(s, 24, 5, false);
    assert !Run(s, 23, 4, false, 3);
    assert !Run(s, 21, 4, false, 1);
    assert !Sep(s, 19, 4, false);
    assert !Run(s, 18, 3, false, 3);
    assert !Run(s, 16, 3, false, 1);
    assert !Sep(s, 14, 3, false);
    assert !Run(s, 13, 2, false, 3);
    assert !Run(s, 11, 2, false, 1);
    assert !Sep(s, 9, 2, false);
    assert !Run(s, 8, 1, false, 3);
    assert !Run(s, 6, 1, false, 1);
    assert !Sep(s, 4, 1, false);
    assert !Run(s, 3, 0, false, 3);
    assert !Run(s, 1, 0, false, 1);
  }

  lemma Line410()
    ensures !IsIPv6((("1111:222" + "2:3333:4") + "444:5555") + (":6666::1" + ".2.3.4"))
  {
    var s := (("1111:222" + "2:3333:4") + "444:5555") + (":6666::1" + ".2.3.4");
    assert !Run(s, 32, 6, true, 1);
    assert !Sep(s, 29, 6, false);
    assert !Run(s, 28, 5, false, 3);
    assert !Run(s, 26, 5, false, 1);
    assert !Sep(s, 24, 5, false);
    assert !Run(s, 23, 4, false, 3);
    assert !Run(s, 21, 4, false, 1);
    assert !Sep(s, 19, 4, false);
    assert !Run(s, 18, 3, false, 3);
    assert !Run(s, 16, 3, false, 1);
    assert !Sep(s, 14, 3, false);
    assert !Run(s, 13, 2, false, 3);
    assert !Run(s, 11, 2, false, 1);
    assert !Sep(s, 9, 2, false);
    assert !Run(s, 8, 1, false, 3);
    assert !Run(s, 6, 1, false, 1);
    assert !Sep(s, 4, 1, false);
    assert !Run(s, 3, 0, false, 3);
    assert !Run(s, 1, 0, false, 1);
  }

  lemma Line411()
    ensures !IsIPv6((("::2222:3" + "333:4444") + ":5555:66") + ("66:7777:" + "1.2.3.4"))
  {
    var s := (("::2222:3" + "333:4444") + ":5555:66") + ("66:7777:" + "1.2.3.4");
    assert !Run(s, 33, 6, true, 1);
    assert !Sep(s, 31, 6, true);
    assert !Run(s, 30, 5, true, 3);
    assert !Run(s, 28, 5, true, 1);
    assert !Sep(s, 26, 5, true);
    assert !Run(s, 25, 4, true, 3);
    assert !Run(s, 23, 4, true, 1);
    assert !Sep(s, 21, 4, true);
    assert !Run(s, 20, 3, true, 3);
    assert !Run(s, 18, 3, true, 1);
    assert !Sep(s, 16, 3, true);
    assert !Run(s, 15, 2, true, 3);
    assert !Run(s, 13, 2, true, 1);
    assert !Sep(s, 11, 2, true);
    assert !Run(s, 10, 1, true, 3);
    assert !Run(s, 8, 1, true, 1);
    assert !Sep(s, 6, 1, true);
    assert !Run(s, 5, 0, true, 3);
    assert !Run(s, 3, 0, true, 1);
  }

  lemma Line412()
    ensures !IsIPv6((("1111:222" + "2:3333:4") + "444:5555") + (":6666:1." + "2.3.4.5"))
  {
    var s := (("1111:222" + "2:3333:4") + "444:5555") + (":6666:1." + "2.3.4.5");
    assert !Octet(s, 37, 3, 1, 4);
    assert !Octet(s, 35, 2, 1, 3);
    assert !Octet(s, 33, 1, 1, 2);
    assert !Octet(s, 31, 0, 1, 1);
    assert !Run(s, 31, 6, false, 1);
    assert !Sep(s, 29, 6, false);
    assert !Run(s, 28, 5, false, 3);
    assert !Run(s, 26, 5, false, 1);
    assert !Sep(s, 24, 5, false);
    assert !Run(s, 23, 4, false, 3);
    assert !Run(s, 21, 4, false, 1);
    assert !Sep(s, 19, 4, false);
    assert !Run(s, 18, 3, false, 3);
    assert !Run(s, 16, 3, false, 1);
    assert !Sep(s, 14, 3, false);
    assert !Run(s, 13, 2, false, 3);
    assert !Run(s, 11, 2, false, 1);
    assert !Sep(s, 9, 2, false);
    assert !Run(s, 8, 1, false, 3);
    assert !Run(s, 6, 1, false, 1);
    assert !Sep(s, 4, 1, false);
    assert !Run(s, 3, 0, false, 3);
    assert !Run(s, 1, 0, false, 1);
  }

  lemma Line414()
    ensures !IsIPv6(("1111:222" + "2:3333:4") + ("444:5555" + ":1.2.3.4"))
  {
    var s := ("1111:222" + "2:3333:4") + ("444:5555" + ":1.2.3.4");
    assert !Run(s, 26, 5, false, 1);
    assert !Sep(s, 24, 5, false);
    assert !Run(s, 23, 4, false, 3);
    assert !Run(s, 21, 4, false, 1);
    assert !Sep(s, 19, 4, false);
    assert !Run(s, 18, 3, false, 3);
    assert !Run(s, 16, 3, false, 1);
    assert !Sep(s, 14, 3, false);
    assert !Run(s, 13, 2, false, 3);
    assert !Run(s, 11, 2, false, 1);
    assert !Sep(s, 9, 2, false);
    assert !Run(s, 8, 1, false, 3);
    assert !Run(s, 6, 1, false, 1);
    assert !Sep(s, 4, 1, false);
    assert !Run(s, 3, 0, false, 3);
    assert !Run(s, 1, 0, false, 1);
  }

  lemma Line415()
    ensures !IsIPv6(("1111:222" + "2:3333:4") + ("444:1.2." + "3.4"))
  {
    var s := ("1111:222" + "2:3333:4") + ("444:1.2." + "3.4");
    assert !Run(s, 21, 4, false, 1);
    assert !Sep(s, 19, 4, false);
    assert !Run(s, 18, 3, false, 3);
    assert !Run(s, 16, 3, false, 1);
    assert !Sep(s, 14, 3, false);
    assert !Run(s, 13, 2, false, 3);
    assert !Run(s, 11, 2, false, 1);
    assert !Sep(s, 9, 2, false);
    assert !Run(s, 8, 1, false, 3);
    assert !Run(s, 6, 1, false, 1);
    assert !Sep(s, 4, 1, false);
    assert !Run(s, 3, 0, false, 3);
    assert !Run(s, 1, 0, false, 1);
  }

  lemma Line416()
    ensures !IsIPv6(("1111:222" + "2:3333:1") + ".2.3.4")
  {
    var s := ("1111:222" + "2:3333:1") + ".2.3.4";
    assert !Run(s, 16, 3, false, 1);
    assert !Sep(s, 14, 3, false);
    assert !Run(s, 13, 2, false, 3);
    assert !Run(s, 11, 2, false, 1);
    assert !Sep(s, 9, 2, false);
    assert !Run(s, 8, 1, false, 3);
    assert !Run(s, 6, 1, false, 1);
    assert !Sep(s, 4, 1, false);
    assert !Run(s, 3, 0, false, 3);
    assert !Run(s, 1, 0, false, 1);
  }

  lemma Line417()
    ensures !IsIPv6(("1111:222" + "2:1.2.3.") + "4")
  {
    var s := ("1111:222" + "2:1.2.3.") + "4";
    assert !Run(s, 11, 2, false, 1);
    assert !Sep(s, 9, 2, false);
    assert !Run(s, 8, 1, false, 3);
    assert !Run(s, 6, 1, false, 1);
    assert !Sep(s, 4, 1, false);
    assert !Run(s, 3, 0, false, 3);
    assert !Run(s, 1, 0, false, 1);
  }

  lemma Line418()
    ensures !IsIPv6("1111:1.2" + ".3.4")
  {
    var s := "1111:1.2" + ".3.4";
    assert !Run(s, 6, 1, false, 1);
    assert !Sep(s, 4, 1, false);
    assert !Run(s, 3, 0, false, 3);
    assert !Run(s, 1, 0, false, 1);
  }

  lemma Line419()
    ensures !IsIPv6("1.2.3.4")
  {
  }

  lemma Line421()
    ensures !IsIPv6((("11112222" + ":3333:44") + "44:5555:") + ("6666:1.2" + ".3.4"))
  {
    var s := (("11112222" + ":3333:44") + "44:5555:") + ("6666:1.2" + ".3.4");
    assert !Run(s, 4, 0, false, 4);
    assert !Run(s, 2, 0, false, 2);
    assert !Run(s, 1, 0, false, 1);
  }

  lemma Line422()
    ensures !IsIPv6((("1111:222" + "23333:44") + "44:5555:") + ("6666:1.2" + ".3.4"))
  {
    var s := (("1111:222" + "23333:44") + "44:5555:") + ("6666:1.2" + ".3.4");
    assert !Run(s, 9, 1, false, 4);
    assert !Run(s, 7, 1, false, 2);
    assert !Run(s, 5, 1, false, 0);
    assert !Run(s, 4, 0, false, 4);
    assert !Run(s, 2, 0, false, 2);
    assert !Run(s, 1, 0, false, 1);
  }

  lemma Line423()
    ensures !IsIPv6((("1111:222" + "2:333344") + "44:5555:") + ("6666:1.2" + ".3.4"))
  {
    var s := (("1111:222" + "2:333344") + "44:5555:") + ("6666:1.2" + ".3.4");
    assert !Run(s, 14, 2, false, 4);
    assert !Run(s, 12, 2, false, 2);
    assert !Run(s, 10, 2, false, 0);
    assert !Run(s, 9, 1, false, 4);
    assert !Run(s, 7, 1, false, 2);
    assert !Run(s, 5, 1, false, 0);
    assert !Run(s, 4, 0, false, 4);
    assert !Run(s, 2, 0, false, 2);
    assert !Run(s, 1, 0, false, 1);
  }

  lemma Line424()
    ensures !IsIPv6((("1111:222" + "2:3333:4") + "4445555:") + ("6666:1.2" + ".3.4"))
  {
    var s := (("1111:222" + "2:3333:4") + "4445555:") + ("6666:1.2" + ".3.4");
    assert !Run(s, 19, 3, false, 4);
    assert !Run(s, 17, 3, false, 2);
    assert !Run(s, 15, 3, false, 0);
    assert !Run(s, 14, 2, false, 4);
    assert !Run(s, 12, 2, false, 2);
    assert !Run(s, 10, 2, false, 0);
    assert !Run(s, 9, 1, false, 4);
    assert !Run(s, 7, 1, false, 2);
    assert !Run(s, 5, 1, false, 0);
    assert !Run(s, 4, 0, false, 4);
    assert !Run(s, 2, 0, false, 2);
    assert !Run(s, 1, 0, false, 1);
  }

  lemma Line425()
    ensures !IsIPv6((("1111:222" + "2:3333:4") + "444:5555") + ("6666:1.2" + ".3.4"))
  {
    var s := (("1111:222" + "2:3333:4") + "444:5555") + ("6666:1.2" + ".3.4");
    assert !Run(s, 24, 4, false, 4);
    assert !Run(s, 22, 4, false, 2);
    assert !Run(s, 20, 4, false, 0);
    assert !Run(s, 19, 3, false, 4);
    assert !Run(s, 17, 3, false, 2);
    assert !Run(s, 15, 3, false, 0);
    assert !Run(s, 14, 2, false, 4);
    assert !Run(s, 12, 2, false, 2);
    assert !Run(s, 10, 2, false, 0);
    assert !Run(s, 9, 1, false, 4);
    assert !Run(s, 7, 1, false, 2);
    assert !Run(s, 5, 1, false, 0);
    assert !Run(s, 4, 0, false, 4);
    assert !Run(s, 2, 0, false, 2);
    assert !Run(s, 1, 0, false, 1);
  }

  lemma Line426()
    ensures !IsIPv6((("1111:222" + "2:3333:4") + "444:5555") + (":66661.2" + ".3.4"))
  {
    var s := (("1111:222" + "2:3333:4") + "444:5555") + (":66661.2" + ".3.4");
    assert !Run(s, 29, 5, false, 4);
    assert !Run(s, 27, 5, false, 2);
    assert !Run(s, 25, 5, false, 0);
    assert !Run(s, 24, 4, false, 4);
    assert !Run(s, 22, 4, false, 2);
    assert !Run(s, 20, 4, false, 0);
    assert !Run(s, 19, 3, false, 4);
    assert !Run(s, 17, 3, false, 2);
    assert !Run(s, 15, 3, false, 0);
    assert !Run(s, 14, 2, false, 4);
    assert !Run(s, 12, 2, false, 2);
    assert !Run(s, 10, 2, false, 0);
    assert !Run(s, 9, 1, false, 4);
    assert !Run(s, 7, 1, false, 2);
    assert !Run(s, 5, 1, false, 0);
    assert !Run(s, 4, 0, false, 4);
    assert !Run(s, 2, 0, false, 2);
    assert !Run(s, 1, 0, false, 1);
  }

  lemma Line428()
    ensures !IsIPv6((("1111:222" + "2:3333:4") + "444:5555") + ((":6666:25" + "5255.255") + ".255"))
  {
    var s := (("1111:222" + "2:3333:4") + "444:5555") + ((":6666:25" + "5255.255") + ".255");
    assert !Run(s, 34, 6, false, 4);
    assert !Run(s, 32, 6, false, 2);
    assert !Run(s, 30, 6, false, 0);
    assert !Run(s, 29, 5, false, 4);
    assert !Run(s, 27, 5, false, 2);
    assert !Run(s, 25, 5, false, 0);
    assert !Run(s, 24, 4, false, 4);
    assert !Run(s, 22, 4, false, 2);
    assert !Run(s, 20, 4, false, 0);
    assert !Run(s, 19, 3, false, 4);
    assert !Run(s, 17, 3, false, 2);
    assert !Run(s, 15, 3, false, 0);
    assert !Run(s, 14, 2, false, 4);
    assert !Run(s, 12, 2, false, 2);
    assert !Run(s, 10, 2, false, 0);
    assert !Run(s, 9, 1, false, 4);
    assert !Run(s, 7, 1, false, 2);
    assert !Run(s, 5, 1, false, 0);
    assert !Run(s, 4, 0, false, 4);
    assert !Run(s, 2, 0, false, 2);
    assert !Run(s, 1, 0, false, 1);
  }

  lemma Line429()
    ensures !IsIPv6((("1111:222" + "2:3333:4") + "444:5555") + ((":6666:25" + "5.255255") + ".255"))
  {
    var s := (("1111:222" + "2:3333:4") + "444:5555") + ((":6666:25" + "5.255255") + ".255");
    assert !Octet(s, 37, 1, 3, 255);
    assert !Octet(s, 35, 1, 1, 2);
    assert !Octet(s, 33, 0, 3, 255);
    assert !Octet(s, 31, 0, 1, 2);
    assert !Run(s, 33, 6, false, 3);
    assert !Run(s, 31, 6, false, 1);
    assert !Sep(s, 29, 6, false);
    assert !Run(s, 28, 5, false, 3);
    assert !Run(s, 26, 5, false, 1);
    assert !Sep(s, 24, 5, false);
    assert !Run(s, 23, 4, false, 3);
    assert !Run(s, 21, 4, false, 1);
    assert !Sep(s, 19, 4, false);
    assert !Run(s, 18, 3, false, 3);
    assert !Run(s, 16, 3, false, 1);
    assert !Sep(s, 14, 3, false);
    assert !Run(s, 13, 2, false, 3);
    assert !Run(s, 11, 2, false, 1);
    assert !Sep(s, 9, 2, false);
    assert !Run(s, 8, 1, false, 3);
    assert !Run(s, 6, 1, false, 1);
    assert !Sep(s, 4, 1, false);
    assert !Run(s, 3, 0, false, 3);
    assert !Run(s, 1, 0, false, 1);
  }

  lemma Line430()
    ensures !IsIPv6((("1111:222" + "2:3333:4") + "444:5555") + ((":6666:25" + "5.255.25") + "5255"))
  {
    var s := (("1111:222" + "2:3333:4") + "444:5555") + ((":6666:25" + "5.255.25") + "5255");
    assert !Octet(s, 41, 2, 3, 255);
    assert !Octet(s, 39, 2, 1, 2);
    assert !Octet(s, 37, 1, 3, 255);
    assert !Octet(s, 35, 1, 1, 2);
    assert !Octet(s, 33, 0, 3, 255);
    assert !Octet(s, 31, 0, 1, 2);
    assert !Run(s, 33, 6, false, 3);
    assert !Run(s, 31, 6, false, 1);
    assert !Sep(s, 29, 6, false);
    assert !Run(s, 28, 5, false, 3);
    assert !Run(s, 26, 5, false, 1);
    assert !Sep(s, 24, 5, false);
    assert !Run(s, 23, 4, false, 3);
    assert !Run(s, 21, 4, false, 1);
    assert !Sep(s, 19, 4, false);
    assert !Run(s, 18, 3, false, 3);
    assert !Run(s, 16, 3, false, 1);
    assert !Sep(s, 14, 3, false);
    assert !Run(s, 13, 2, false, 3);
    assert !Run(s, 11, 2, false, 1);
    assert !Sep(s, 9, 2, false);
    assert !Run(s, 8, 1, false, 3);
    assert !Run(s, 6, 1, false, 1);
    assert !Sep(s, 4, 1, false);
    assert !Run(s, 3, 0, false, 3);
    assert !Run(s, 1, 0, false, 1);
  }

  lemma Line432()
    ensures !IsIPv6(":1.2.3.4")
  {
  }

  lemma Line433()
    ensures !IsIPv6(":6666:1." + "2.3.4")
  {
    var s := ":6666:1." + "2.3.4";
  }

  lemma Line434()
    ensures !IsIPv6((":5555:66" + "66:1.2.3") + ".4")
  {
    var s := (":5555:66" + "66:1.2.3") + ".4";
  }

  lemma Line435()
    ensures !IsIPv6((":4444:55" + "55:6666:") + "1.2.3.4")
  {
    var s := (":4444:55" + "55:6666:") + "1.2.3.4";
  }

  lemma Line436()
    ensures !IsIPv6((":3333:44" + "44:5555:") + ("6666:1.2" + ".3.4"))
  {
    var s := (":3333:44" + "44:5555:") + ("6666:1.2" + ".3.4");
  }

  lemma Line437()
    ensures !IsIPv6(((":2222:33" + "33:4444:") + "5555:666") + ("6:1.2.3." + "4"))
  {
    var s := ((":2222:33" + "33:4444:") + "5555:666") + ("6:1.2.3." + "4");
  }

  lemma Line438()
    ensures !IsIPv6(((":1111:22" + "22:3333:") + "4444:555") + ("5:6666:1" + ".2.3.4"))
  {
    var s := ((":1111:22" + "22:3333:") + "4444:555") + ("5:6666:1" + ".2.3.4");
  }

  lemma Line440()
    ensures !IsIPv6(((":::2222:" + "3333:444") + "4:5555:6") + ("666:1.2." + "3.4"))
  {
    var s := ((":::2222:" + "3333:444") + "4:5555:6") + ("666:1.2." + "3.4");
  }

  lemma Line441()
    ensures !IsIPv6((("1111:::3" + "333:4444") + ":5555:66") + ("66:1.2.3" + ".4"))
  {
    var s := (("1111:::3" + "333:4444") + ":5555:66") + ("66:1.2.3" + ".4");
    assert !Run(s, 6, 1, true, 0);
    assert !Run(s, 4, 0, false, 4);
    assert !Run(s, 2, 0, false, 2);
    assert !Run(s, 1, 0, false, 1);
  }

  lemma Line442()
    ensures !IsIPv6((("1111:222" + "2:::4444") + ":5555:66") + ("66:1.2.3" + ".4"))
  {
    var s := (("1111:222" + "2:::4444") + ":5555:66") + ("66:1.2.3" + ".4");
    assert !Run(s, 11, 2, true, 0);
    assert !Run(s, 9, 1, false, 4);
    assert !Run(s, 7, 1, false, 2);
    assert !Run(s, 5, 1, false, 0);
    assert !Run(s, 4, 0, false, 4);
    assert !Run(s, 2, 0, false, 2);
    assert !Run(s, 1, 0, false, 1);
  }

  lemma Line443()
    ensures !IsIPv6((("1111:222" + "2:3333::") + ":5555:66") + ("66:1.2.3" + ".4"))
  {
    var s := (("1111:222" + "2:3333::") + ":5555:66") + ("66:1.2.3" + ".4");
    assert !Run(s, 16, 3, true, 0);
    assert !Run(s, 14, 2, false, 4);
    assert !Run(s, 12, 2, false, 2);
    assert !Run(s, 10, 2, false, 0);
    assert !Run(s, 9, 1, false, 4);
    assert !Run(s, 7, 1, false, 2);
    assert !Run(s, 5, 1, false, 0);
    assert !Run(s, 4, 0, false, 4);
    assert !Run(s, 2, 0, false, 2);
    assert !Run(s, 1, 0, false, 1);
  }

  lemma Line444()
    ensures !IsIPv6((("1111:222" + "2:3333:4") + "444:::66") + ("66:1.2.3" + ".4"))
  {
    var s := (("1111:222" + "2:3333:4") + "444:::66") + ("66:1.2.3" + ".4");
    assert !Run(s, 21, 4, true, 0);
    assert !Run(s, 19, 3, false, 4);
    assert !Run(s, 17, 3, false, 2);
    assert !Run(s, 15, 3, false, 0);
    assert !Run(s, 14, 2, false, 4);
    assert !Run(s, 12, 2, false, 2);
    assert !Run(s, 10, 2, false, 0);
    assert !Run(s, 9, 1, false, 4);
    assert !Run(s, 7, 1, false, 2);
    assert !Run(s, 5, 1, false, 0);
    assert !Run(s, 4, 0, false, 4);
    assert !Run(s, 2, 0, false, 2);
    assert !Run(s, 1, 0, false, 1);
  }

  lemma Line445()
    ensures !IsIPv6((("1111:222" + "2:3333:4") + "444:5555") + (":::1.2.3" + ".4"))
  {
    var s := (("1111:222" + "2:3333:4") + "444:5555") + (":::1.2.3" + ".4");
    assert !Run(s, 26, 5, true, 0);
    assert !Run(s, 24, 4, false, 4);
    assert !Run(s, 22, 4, false, 2);
    assert !Run(s, 20, 4, false, 0);
    assert !Run(s, 19, 3, false, 4);
    assert !Run(s, 17, 3, false, 2);
    assert !Run(s, 15, 3, false, 0);
    assert !Run(s, 14, 2, false, 4);
    assert !Run(s, 12, 2, false, 2);
    assert !Run(s, 10, 2, false, 0);
    assert !Run(s, 9, 1, false, 4);
    assert !Run(s, 7, 1, false, 2);
    assert !Run(s, 5, 1, false, 0);
    assert !Run(s, 4, 0, false, 4);
    assert !Run(s, 2, 0, false, 2);
    assert !Run(s, 1, 0, false, 1);
  }

  lemma Line447()
    ensures !IsIPv6(("::2222::" + "4444:555") + ("5:6666:1" + ".2.3.4"))
  {
    var s := ("::2222::" + "4444:555") + ("5:6666:1" + ".2.3.4");
    assert !Sep(s, 6, 1, true);
    assert !Run(s, 5, 0, true, 3);
    assert !Run(s, 3, 0, true, 1);
  }

  lemma Line448()
    ensures !IsIPv6(("::2222:3" + "333::555") + ("5:6666:1" + ".2.3.4"))
  {
    var s := ("::2222:3" + "333::555") + ("5:6666:1" + ".2.3.4");
    assert !Sep(s, 11, 2, true);
    assert !Run(s, 10, 1, true, 3);
    assert !Run(s, 8, 1, true, 1);
    assert !Sep(s, 6, 1, true);
    assert !Run(s, 5, 0, true, 3);
    assert !Run(s, 3, 0, true, 1);
  }

  lemma Line449()
    ensures !IsIPv6(("::2222:3" + "333:4444") + ("::6666:1" + ".2.3.4"))
  {
    var s := ("::2222:3" + "333:4444") + ("::6666:1" + ".2.3.4");
    assert !Sep(s, 16, 3, true);
    assert !Run(s, 15, 2, true, 3);
    assert !Run(s, 13, 2, true, 1);
    assert !Sep(s, 11, 2, true);
    assert !Run(s, 10, 1, true, 3);
    assert !Run(s, 8, 1, true, 1);
    assert !Sep(s, 6, 1, true);
    assert !Run(s, 5, 0, true, 3);
    assert !Run(s, 3, 0, true, 1);
  }

  lemma Line450()
    ensures !IsIPv6(("::2222:3" + "333:4444") + (":5555::1" + ".2.3.4"))
  {
    var s := ("::2222:3" + "333:4444") + (":5555::1" + ".2.3.4");
    assert !Sep(s, 21, 4, true);
    assert !Run(s, 20, 3, true, 3);
    assert !Run(s, 18, 3, true, 1);
    assert !Sep(s, 16, 3, true);
    assert !Run(s, 15, 2, true, 3);
    assert !Run(s, 13, 2, true, 1);
    assert !Sep(s, 11, 2, true);
    assert !Run(s, 10, 1, true, 3);
    assert !Run(s, 8, 1, true, 1);
    assert !Sep(s, 6, 1, true);
    assert !Run(s, 5, 0, true, 3);
    assert !Run(s, 3, 0, true, 1);
  }

  lemma Line452()
    ensures !IsIPv6(("1111::33" + "33::5555") + (":6666:1." + "2.3.4"))
  {
    var s := ("1111::33" + "33::5555") + (":6666:1." + "2.3.4");
    assert !Sep(s, 10, 2, true);
    assert !Run(s, 9, 1, true, 3);
    assert !Run(s, 7, 1, true, 1);
    assert !Sep(s, 4, 1, false);
    assert !Run(s, 3, 0, false, 3);
    assert !Run(s, 1, 0, false, 1);
  }

  lemma Line453()
    ensures !IsIPv6(("1111::33" + "33:4444:") + (":6666:1." + "2.3.4"))
  {
    var s := ("1111::33" + "33:4444:") + (":6666:1." + "2.3.4");
    assert !Sep(s, 15, 3, true);
    assert !Run(s, 14, 2, true, 3);
    assert !Run(s, 12, 2, true, 1);
    assert !Sep(s, 10, 2, true);
    assert !Run(s, 9, 1, true, 3);
    assert !Run(s, 7, 1, true, 1);
    assert !Sep(s, 4, 1, false);
    assert !Run(s, 3, 0, false, 3);
    assert !Run(s, 1, 0, false, 1);
  }

  lemma Line454()
    ensures !IsIPv6(("1111::33" + "33:4444:") + ("5555::1." + "2.3.4"))
  {
    var s := ("1111::33" + "33:4444:") + ("5555::1." + "2.3.4");
    assert !Sep(s, 20, 4, true);
    assert !Run(s, 19, 3, true, 3);
    assert !Run(s, 17, 3, true, 1);
    assert !Sep(s, 15, 3, true);
    assert !Run(s, 14, 2, true, 3);
    assert !Run(s, 12, 2, true, 1);
    assert !Sep(s, 10, 2, true);
    assert !Run(s, 9, 1, true, 3);
    assert !Run(s, 7, 1, true, 1);
    assert !Sep(s, 4, 1, false);
    assert !Run(s, 3, 0, false, 3);
    assert !Run(s, 1, 0, false, 1);
  }

  lemma Line456()
    ensures !IsIPv6(("1111:222" + "2::4444:") + (":6666:1." + "2.3.4"))
  {
    var s := ("1111:222" + "2::4444:") + (":6666:1." + "2.3.4");
    assert !Sep(s, 15, 3, true);
    assert !Run(s, 14, 2, true, 3);
    assert !Run(s, 12, 2, true, 1);
    assert !Sep(s, 9, 2, false);
    assert !Run(s, 8, 1, false, 3);
    assert !Run(s, 6, 1, false, 1);
    assert !Sep(s, 4, 1, false);
    assert !Run(s, 3, 0, false, 3);
    assert !Run(s, 1, 0, false, 1);
  }

  lemma Line457()
    ensures !IsIPv6(("1111:222" + "2::4444:") + ("5555::1." + "2.3.4"))
  {
    var s := ("1111:222" + "2::4444:") + ("5555::1." + "2.3.4");
    assert !Sep(s, 20, 4, true);
    assert !Run(s, 19, 3, true, 3);
    assert !Run(s, 17, 3, true, 1);
    assert !Sep(s, 15, 3, true);
    assert !Run(s, 14, 2, true, 3);
    assert !Run(s, 12, 2, true, 1);
    assert !Sep(s, 9, 2, false);
    assert !Run(s, 8, 1, false, 3);
    assert !Run(s, 6, 1, false, 1);
    assert !Sep(s, 4, 1, false);
    assert !Run(s, 3, 0, false, 3);
    assert !Run(s, 1, 0, false, 1);
  }

  lemma Line459()
    ensures !IsIPv6(("1111:222" + "2:3333::") + ("5555::1." + "2.3.4"))
  {
    var s := ("1111:222" + "2:3333::") + ("5555::1." + "2.3.4");
    assert !Sep(s, 20, 4, true);
    assert !Run(s, 19, 3, true, 3);
    assert !Run(s, 17, 3, true, 1);
    assert !Sep(s, 14, 3, false);
    assert !Run(s, 13, 2, false, 3);
    assert !Run(s, 11, 2, false, 1);
    assert !Sep(s, 9, 2, false);
    assert !Run(s, 8, 1, false, 3);
    assert !Run(s, 6, 1, false, 1);
    assert !Sep(s, 4, 1, false);
    assert !Run(s, 3, 0, false, 3);
    assert !Run(s, 1, 0, false, 1);
  }

  lemma Line461()
    ensures !IsIPv6("::.")
  {
  }

  lemma Line462()
    ensures !IsIPv6("::..")
  {
  }

  lemma Line463()
    ensures !IsIPv6("::...")
  {
  }

  lemma Line464()
    ensures !IsIPv6("::1...")
  {
  }

  lemma Line465()
    ensures !IsIPv6("::1.2..")
  {
  }

  lemma Line466()
    ensures !IsIPv6("::1.2.3.")
  {
  }

  lemma Line467()
    ensures !IsIPv6("::.2..")
  {
  }

  lemma Line468()
    ensures !IsIPv6("::.2.3.")
  {
  }

  lemma Line469()
    ensures !IsIPv6("::.2.3.4")
  {
  }

  lemma Line470()
    ensures !IsIPv6("::..3.")
  {
  }

  lemma Line471()
    ensures !IsIPv6("::..3.4")
  {
  }

  lemma Line472()
    ensures !IsIPv6("::...4")
  {
  }

  lemma Line474()
    ensures !IsIPv6(((":1111:22" + "22:3333:") + "4444:555") + ("5:6666:7" + "777::"))
  {
    var s := ((":1111:22" + "22:3333:") + "4444:555") + ("5:6666:7" + "777::");
  }

  lemma Line475()
    ensures !IsIPv6((":1111:22" + "22:3333:") + ("4444:555" + "5:6666::"))
  {
    var s := (":1111:22" + "22:3333:") + ("4444:555" + "5:6666::");
  }

  lemma Line476()
    ensures !IsIPv6((":1111:22" + "22:3333:") + ("4444:555" + "5::"))
  {
    var s := (":1111:22" + "22:3333:") + ("4444:555" + "5::");
  }

  lemma Line477()
    ensures !IsIPv6((":1111:22" + "22:3333:") + "4444::")
  {
    var s := (":1111:22" + "22:3333:") + "4444::";
  }

  lemma Line478()
    ensures !IsIPv6((":1111:22" + "22:3333:") + ":")
  {
    var s := (":1111:22" + "22:3333:") + ":";
  }

  lemma Line479()
    ensures !IsIPv6(":1111:22" + "22::")
  {
    var s := ":1111:22" + "22::";
  }

  lemma Line480()
    ensures !IsIPv6(":1111::")
  {
  }

  lemma Line481()
    ensures !IsIPv6(":::")
  {
  }

  lemma Line482()
    ensures !IsIPv6(((":1111:22" + "22:3333:") + "4444:555") + ("5:6666::" + "8888"))
  {
    var s := ((":1111:22" + "22:3333:") + "4444:555") + ("5:6666::" + "8888");
  }

  lemma Line483()
    ensures !IsIPv6((":1111:22" + "22:3333:") + ("4444:555" + "5::8888"))
  {
    var s := (":1111:22" + "22:3333:") + ("4444:555" + "5::8888");
  }

  lemma Line484()
    ensures !IsIPv6((":1111:22" + "22:3333:") + ("4444::88" + "88"))
  {
    var s := (":1111:22" + "22:3333:") + ("4444::88" + "88");
  }

  lemma Line485()
    ensures !IsIPv6((":1111:22" + "22:3333:") + ":8888")
  {
    var s := (":1111:22" + "22:3333:") + ":8888";
  }

  lemma Line486()
    ensures !IsIPv6(":1111:22" + "22::8888")
  {
    var s := ":1111:22" + "22::8888";
  }

  lemma Line487()
    ensures !IsIPv6(":1111::8" + "888")
  {
    var s := ":1111::8" + "888";
  }

  lemma Line488()
    ensures !IsIPv6(":::8888")
  {
  }

  lemma Line489()
    ensures !IsIPv6(((":1111:22" + "22:3333:") + "4444:555") + ("5::7777:" + "8888"))
  {
    var s := ((":1111:22" + "22:3333:") + "4444:555") + ("5::7777:" + "8888");
  }

  lemma Line490()
    ensures !IsIPv6((":1111:22" + "22:3333:") + ("4444::77" + "77:8888"))
  {
    var s := (":1111:22" + "22:3333:") + ("4444::77" + "77:8888");
  }

  lemma Line491()
    ensures !IsIPv6((":1111:22" + "22:3333:") + (":7777:88" + "88"))
  {
    var s := (":1111:22" + "22:3333:") + (":7777:88" + "88");
  }

  lemma Line492()
    ensures !IsIPv6((":1111:22" + "22::7777") + ":8888")
  {
    var s := (":1111:22" + "22::7777") + ":8888";
  }

  lemma Line493()
    ensures !IsIPv6(":1111::7" + "777:8888")
  {
    var s := ":1111::7" + "777:8888";
  }

  lemma Line494()
    ensures !IsIPv6(":::7777:" + "8888")
  {
    var s := ":::7777:" + "8888";
  }

  lemma Line495()
    ensures !IsIPv6(((":1111:22" + "22:3333:") + "4444::66") + ("66:7777:" + "8888"))
  {
    var s := ((":1111:22" + "22:3333:") + "4444::66") + ("66:7777:" + "8888");
  }

  lemma Line496()
    ensures !IsIPv6((":1111:22" + "22:3333:") + (":6666:77" + "77:8888"))
  {
    var s := (":1111:22" + "22:3333:") + (":6666:77" + "77:8888");
  }

  lemma Line497()
    ensures !IsIPv6((":1111:22" + "22::6666") + (":7777:88" + "88"))
  {
    var s := (":1111:22" + "22::6666") + (":7777:88" + "88");
  }

  lemma Line498()
    ensures !IsIPv6((":1111::6" + "666:7777") + ":8888")
  {
    var s := (":1111::6" + "666:7777") + ":8888";
  }

  lemma Line499()
    ensures !IsIPv6((":::6666:" + "7777:888") + "8")
  {
    var s := (":::6666:" + "7777:888") + "8";
  }

  lemma Line500()
    ensures !IsIPv6(((":1111:22" + "22:3333:") + ":5555:66") + ("66:7777:" + "8888"))
  {
    var s := ((":1111:22" + "22:3333:") + ":5555:66") + ("66:7777:" + "8888");
  }

  lemma Line501()
    ensures !IsIPv6((":1111:22" + "22::5555") + (":6666:77" + "77:8888"))
  {
    var s := (":1111:22" + "22::5555") + (":6666:77" + "77:8888");
  }

  lemma Line502()
    ensures !IsIPv6((":1111::5" + "555:6666") + (":7777:88" + "88"))
  {
    var s := (":1111::5" + "555:6666") + (":7777:88" + "88");
  }

  lemma Line503()
    ensures !IsIPv6((":::5555:" + "6666:777") + "7:8888")
  {
    var s := (":::5555:" + "6666:777") + "7:8888";
  }

  lemma Line504()
    ensures !IsIPv6(((":1111:22" + "22::4444") + ":5555:66") + ("66:7777:" + "8888"))
  {
    var s := ((":1111:22" + "22::4444") + ":5555:66") + ("66:7777:" + "8888");
  }

  lemma Line505()
    ensures !IsIPv6((":1111::4" + "444:5555") + (":6666:77" + "77:8888"))
  {
    var s := (":1111::4" + "444:5555") + (":6666:77" + "77:8888");
  }

  lemma Line506()
    ensures !IsIPv6((":::4444:" + "5555:666") + ("6:7777:8" + "888"))
  {
    var s := (":::4444:" + "5555:666") + ("6:7777:8" + "888");
  }

  lemma Line507()
    ensures !IsIPv6(((":1111::3" + "333:4444") + ":5555:66") + ("66:7777:" + "8888"))
  {
    var s := ((":1111::3" + "333:4444") + ":5555:66") + ("66:7777:" + "8888");
  }

  lemma Line508()
    ensures !IsIPv6((":::3333:" + "4444:555") + ("5:6666:7" + "777:8888"))
  {
    var s := (":::3333:" + "4444:555") + ("5:6666:7" + "777:8888");
  }

  lemma Line509()
    ensures !IsIPv6(((":::2222:" + "3333:444") + "4:5555:6") + ("666:7777" + ":8888"))
  {
    var s := ((":::2222:" + "3333:444") + "4:5555:6") + ("666:7777" + ":8888");
  }

  lemma Line510()
    ensures !IsIPv6(((":1111:22" + "22:3333:") + "4444:555") + ("5:6666:1" + ".2.3.4"))
  {
    var s := ((":1111:22" + "22:3333:") + "4444:555") + ("5:6666:1" + ".2.3.4");
  }

  lemma Line511()
    ensures !IsIPv6(((":1111:22" + "22:3333:") + "4444:555") + ("5::1.2.3" + ".4"))
  {
    var s := ((":1111:22" + "22:3333:") + "4444:555") + ("5::1.2.3" + ".4");
  }

  lemma Line512()
    ensures !IsIPv6((":1111:22" + "22:3333:") + ("4444::1." + "2.3.4"))
  {
    var s := (":1111:22" + "22:3333:") + ("4444::1." + "2.3.4");
  }

  lemma Line513()
    ensures !IsIPv6((":1111:22" + "22:3333:") + ":1.2.3.4")
  {
    var s := (":1111:22" + "22:3333:") + ":1.2.3.4";
  }

  lemma Line514()
    ensures !IsIPv6((":1111:22" + "22::1.2.") + "3.4")
  {
    var s := (":1111:22" + "22::1.2.") + "3.4";
  }

  lemma Line515()
    ensures !IsIPv6(":1111::1" + ".2.3.4")
  {
    var s := ":1111::1" + ".2.3.4";
  }

  lemma Line516()
    ensures !IsIPv6(":::1.2.3" + ".4")
  {
    var s := ":::1.2.3" + ".4";
  }

  lemma Line517()
    ensures !IsIPv6(((":1111:22" + "22:3333:") + "4444::66") + ("66:1.2.3" + ".4"))
  {
    var s := ((":1111:22" + "22:3333:") + "4444::66") + ("66:1.2.3" + ".4");
  }

  lemma Line518()
    ensures !IsIPv6((":1111:22" + "22:3333:") + (":6666:1." + "2.3.4"))
  {
    var s := (":1111:22" + "22:3333:") + (":6666:1." + "2.3.4");
  }

  lemma Line519()
    ensures !IsIPv6((":1111:22" + "22::6666") + ":1.2.3.4")
  {
    var s := (":1111:22" + "22::6666") + ":1.2.3.4";
  }

  lemma Line520()
    ensures !IsIPv6((":1111::6" + "666:1.2.") + "3.4")
  {
    var s := (":1111::6" + "666:1.2.") + "3.4";
  }

  lemma Line521()
    ensures !IsIPv6(":::6666:" + "1.2.3.4")
  {
    var s := ":::6666:" + "1.2.3.4";
  }

  lemma Line522()
    ensures !IsIPv6(((":1111:22" + "22:3333:") + ":5555:66") + ("66:1.2.3" + ".4"))
  {
    var s := ((":1111:22" + "22:3333:") + ":5555:66") + ("66:1.2.3" + ".4");
  }

  lemma Line523()
    ensures !IsIPv6((":1111:22" + "22::5555") + (":6666:1." + "2.3.4"))
  {
    var s := (":1111:22" + "22::5555") + (":6666:1." + "2.3.4");
  }

  lemma Line524()
    ensures !IsIPv6((":1111::5" + "555:6666") + ":1.2.3.4")
  {
    var s := (":1111::5" + "555:6666") + ":1.2.3.4";
  }

  lemma Line525()
    ensures !IsIPv6((":::5555:" + "6666:1.2") + ".3.4")
  {
    var s := (":::5555:" + "6666:1.2") + ".3.4";
  }

  lemma Line526()
    ensures !IsIPv6(((":1111:22" + "22::4444") + ":5555:66") + ("66:1.2.3" + ".4"))
  {
    var s := ((":1111:22" + "22::4444") + ":5555:66") + ("66:1.2.3" + ".4");
  }

  lemma Line527()
    ensures !IsIPv6((":1111::4" + "444:5555") + (":6666:1." + "2.3.4"))
  {
    var s := (":1111::4" + "444:5555") + (":6666:1." + "2.3.4");
  }

  lemma Line528()
    ensures !IsIPv6((":::4444:" + "5555:666") + ("6:1.2.3." + "4"))
  {
    var s := (":::4444:" + "5555:666") + ("6:1.2.3." + "4");
  }

  lemma Line529()
    ensures !IsIPv6(((":1111::3" + "333:4444") + ":5555:66") + ("66:1.2.3" + ".4"))
  {
    var s := ((":1111::3" + "333:4444") + ":5555:66") + ("66:1.2.3" + ".4");
  }

  lemma Line530()
    ensures !IsIPv6(((":::2222:" + "3333:444") + "4:5555:6") + ("666:1.2." + "3.4"))
  {
    var s := ((":::2222:" + "3333:444") + "4:5555:6") + ("666:1.2." + "3.4");
  }

  lemma Line532()
    ensures !IsIPv6((("1111:222" + "2:3333:4") + "444:5555") + (":6666:77" + "77:::"))
  {
    var s := (("1111:222" + "2:3333:4") + "444:5555") + (":6666:77" + "77:::");
    assert !Run(s, 36, 7, true, 0);
    assert !Run(s, 34, 6, false, 4);
    assert !Run(s, 32, 6, false, 2);
    assert !Run(s, 30, 6, false, 0);
    assert !Run(s, 29, 5, false, 4);
    assert !Run(s, 27, 5, false, 2);
    assert !Run(s, 25, 5, false, 0);
    assert !Run(s, 24, 4, false, 4);
    assert !Run(s, 22, 4, false, 2);
    assert !Run(s, 20, 4, false, 0);
    assert !Run(s, 19, 3, false, 4);
    assert !Run(s, 17, 3, false, 2);
    assert !Run(s, 15, 3, false, 0);
    assert !Run(s, 14, 2, false, 4);
    assert !Run(s, 12, 2, false, 2);
    assert !Run(s, 10, 2, false, 0);
    assert !Run(s, 9, 1, false, 4);
    assert !Run(s, 7, 1, false, 2);
    assert !Run(s, 5, 1, false, 0);
    assert !Run(s, 4, 0, false, 4);
    assert !Run(s, 2, 0, false, 2);
    assert !Run(s, 1, 0, false, 1);
  }

  lemma Line533()
    ensures !IsIPv6(("1111:222" + "2:3333:4") + ("444:5555" + ":6666:::"))
  {
    var s := ("1111:222" + "2:3333:4") + ("444:5555" + ":6666:::");
    assert !Run(s, 31, 6, true, 0);
    assert !Run(s, 29, 5, false, 4);
    assert !Run(s, 27, 5, false, 2);
    assert !Run(s, 25, 5, false, 0);
    assert !Run(s, 24, 4, false, 4);
    assert !Run(s, 22, 4, false, 2);
    assert !Run(s, 20, 4, false, 0);
    assert !Run(s, 19, 3, false, 4);
    assert !Run(s, 17, 3, false, 2);
    assert !Run(s, 15, 3, false, 0);
    assert !Run(s, 14, 2, false, 4);
    assert !Run(s, 12, 2, false, 2);
    assert !Run(s, 10, 2, false, 0);
    assert !Run(s, 9, 1, false, 4);
    assert !Run(s, 7, 1, false, 2);
    assert !Run(s, 5, 1, false, 0);
    assert !Run(s, 4, 0, false, 4);
    assert !Run(s, 2, 0, false, 2);
    assert !Run(s, 1, 0, false, 1);
  }

  lemma Line534()
    ensures !IsIPv6(("1111:222" + "2:3333:4") + ("444:5555" + ":::"))
  {
    var s := ("1111:222" + "2:3333:4") + ("444:5555" + ":::");
    assert !Run(s, 26, 5, true, 0);
    assert !Run(s, 24, 4, false, 4);
    assert !Run(s, 22, 4, false, 2);
    assert !Run(s, 20, 4, false, 0);
    assert !Run(s, 19, 3, false, 4);
    assert !Run(s, 17, 3, false, 2);
    assert !Run(s, 15, 3, false, 0);
    assert !Run(s, 14, 2, false, 4);
    assert !Run(s, 12, 2, false, 2);
    assert !Run(s, 10, 2, false, 0);
    assert !Run(s, 9, 1, false, 4);
    assert !Run(s, 7, 1, false, 2);
    assert !Run(s, 5, 1, false, 0);
    assert !Run(s, 4, 0, false, 4);
    assert !Run(s, 2, 0, false, 2);
    assert !Run(s, 1, 0, false, 1);
  }

  lemma Line535()
    ensures !IsIPv6(("1111:222" + "2:3333:4") + "444:::")
  {
    var s := ("1111:222" + "2:3333:4") + "444:::";
    assert !Run(s, 21, 4, true, 0);
    assert !Run(s, 19, 3, false, 4);
    assert !Run(s, 17, 3, false, 2);
    assert !Run(s, 15, 3, false, 0);
    assert !Run(s, 14, 2, false, 4);
    assert !Run(s, 12, 2, false, 2);
    assert !Run(s, 10, 2, false, 0);
    assert !Run(s, 9, 1, false, 4);
    assert !Run(s, 7, 1, false, 2);
    assert !Run(s, 5, 1, false, 0);
    assert !Run(s, 4, 0, false, 4);
    assert !Run(s, 2, 0, false, 2);
    assert !Run(s, 1, 0, false, 1);
  }

  lemma Line536()
    ensures !IsIPv6(("1111:222" + "2:3333::") + ":")
  {
    var s := ("1111:222" + "2:3333::") + ":";
    assert !Run(s, 16, 3, true, 0);
    assert !Run(s, 14, 2, false, 4);
    assert !Run(s, 12, 2, false, 2);
    assert !Run(s, 10, 2, false, 0);
    assert !Run(s, 9, 1, false, 4);
    assert !Run(s, 7, 1, false, 2);
    assert !Run(s, 5, 1, false, 0);
    assert !Run(s, 4, 0, false, 4);
    assert !Run(s, 2, 0, false, 2);
    assert !Run(s, 1, 0, false, 1);
  }

  lemma Line537()
    ensures !IsIPv6("1111:222" + "2:::")
  {
    var s := "1111:222" + "2:::";
    assert !Run(s, 11, 2, true, 0);
    assert !Run(s, 9, 1, false, 4);
    assert !Run(s, 7, 1, false, 2);
    assert !Run(s, 5, 1, false, 0);
    assert !Run(s, 4, 0, false, 4);
    assert !Run(s, 2, 0, false, 2);
    assert !Run(s, 1, 0, false, 1);
  }

  lemma Line538()
    ensures !IsIPv6("1111:::")
  {
  }

  lemma Line539()
    ensures !IsIPv6(":::")
  {
  }

  lemma Line540()
    ensures !IsIPv6((("1111:222" + "2:3333:4") + "444:5555") + (":6666::8" + "888:"))
  {
    var s := (("1111:222" + "2:3333:4") + "444:5555") + (":6666::8" + "888:");
    assert !Sep(s, 35, 7, true);
    assert !Run(s, 34, 6, true, 3);
    assert !Run(s, 32, 6, true, 1);
    assert !Sep(s, 29, 6, false);
    assert !Run(s, 28, 5, false, 3);
    assert !Run(s, 26, 5, false, 1);
    assert !Sep(s, 24, 5, false);
    assert !Run(s, 23, 4, false, 3);
    assert !Run(s, 21, 4, false, 1);
    assert !Sep(s, 19, 4, false);
    assert !Run(s, 18, 3, false, 3);
    assert !Run(s, 16, 3, false, 1);
    assert !Sep(s, 14, 3, false);
    assert !Run(s, 13, 2, false, 3);
    assert !Run(s, 11, 2, false, 1);
    assert !Sep(s, 9, 2, false);
    assert !Run(s, 8, 1, false, 3);
    assert !Run(s, 6, 1, false, 1);
    assert !Sep(s, 4, 1, false);
    assert !Run(s, 3, 0, false, 3);
    assert !Run(s, 1, 0, false, 1);
  }

  lemma Line541()
    ensures !IsIPv6(("1111:222" + "2:3333:4") + ("444:5555" + "::8888:"))
  {
    var s := ("1111:222" + "2:3333:4") + ("444:5555" + "::8888:");
    assert !Sep(s, 30, 6, true);
    assert !Run(s, 29, 5, true, 3);
    assert !Run(s, 27, 5, true, 1);
    assert !Sep(s, 24, 5, false);
    assert !Run(s, 23, 4, false, 3);
    assert !Run(s, 21, 4, false, 1);
    assert !Sep(s, 19, 4, false);
    assert !Run(s, 18, 3, false, 3);
    assert !Run(s, 16, 3, false, 1);
    assert !Sep(s, 14, 3, false);
    assert !Run(s, 13, 2, false, 3);
    assert !Run(s, 11, 2, false, 1);
    assert !Sep(s, 9, 2, false);
    assert !Run(s, 8, 1, false, 3);
    assert !Run(s, 6, 1, false, 1);
    assert !Sep(s, 4, 1, false);
    assert !Run(s, 3, 0, false, 3);
    assert !Run(s, 1, 0, false, 1);
  }

  lemma Line542()
    ensures !IsIPv6(("1111:222" + "2:3333:4") + ("444::888" + "8:"))
  {
    var s := ("1111:222" + "2:3333:4") + ("444::888" + "8:");
    assert !Sep(s, 25, 5, true);
    assert !Run(s, 24, 4, true, 3);
    assert !Run(s, 22, 4, true, 1);
    assert !Sep(s, 19, 4, false);
    assert !Run(s, 18, 3, false, 3);
    assert !Run(s, 16, 3, false, 1);
    assert !Sep(s, 14, 3, false);
    assert !Run(s, 13, 2, false, 3);
    assert !Run(s, 11, 2, false, 1);
    assert !Sep(s, 9, 2, false);
    assert !Run(s, 8, 1, false, 3);
    assert !Run(s, 6, 1, false, 1);
    assert !Sep(s, 4, 1, false);
    assert !Run(s, 3, 0, false, 3);
    assert !Run(s, 1, 0, false, 1);
  }

  lemma Line543()
    ensures !IsIPv6(("1111:222" + "2:3333::") + "8888:")
  {
    var s := ("1111:222" + "2:3333::") + "8888:";
    assert !Sep(s, 20, 4, true);
    assert !Run(s, 19, 3, true, 3);
    assert !Run(s, 17, 3, true, 1);
    assert !Sep(s, 14, 3, false);
    assert !Run(s, 13, 2, false, 3);
    assert !Run(s, 11, 2, false, 1);
    assert !Sep(s, 9, 2, false);
    assert !Run(s, 8, 1, false, 3);
    assert !Run(s, 6, 1, false, 1);
    assert !Sep(s, 4, 1, false);
    assert !Run(s, 3, 0, false, 3);
    assert !Run(s, 1, 0, false, 1);
  }

  lemma Line544()
    ensures !IsIPv6("1111:222" + "2::8888:")
  {
    var s := "1111:222" + "2::8888:";
    assert !Sep(s, 15, 3, true);
    assert !Run(s, 14, 2, true, 3);
    assert !Run(s, 12, 2, true, 1);
    assert !Sep(s, 9, 2, false);
    assert !Run(s, 8, 1, false, 3);
    assert !Run(s, 6, 1, false, 1);
    assert !Sep(s, 4, 1, false);
    assert !Run(s, 3, 0, false, 3);
    assert !Run(s, 1, 0, false, 1);
  }

  lemma Line545()
    ensures !IsIPv6("1111::88" + "88:")
  {
    var s := "1111::88" + "88:";
    assert !Sep(s, 10, 2, true);
    assert !Run(s, 9, 1, true, 3);
    assert !Run(s, 7, 1, true, 1);
    assert !Sep(s, 4, 1, false);
    assert !Run(s, 3, 0, false, 3);
    assert !Run(s, 1, 0, false, 1);
  }

  lemma Line546()
    ensures !IsIPv6("::8888:")
  {
  }

  lemma Line547()
    ensures !IsIPv6((("1111:222" + "2:3333:4") + "444:5555") + ("::7777:8" + "888:"))
  {
    var s := (("1111:222" + "2:3333:4") + "444:5555") + ("::7777:8" + "888:");
    assert !Sep(s, 35, 7, true);
    assert !Run(s, 34, 6, true, 3);
    assert !Run(s, 32, 6, true, 1);
    assert !Sep(s, 30, 6, true);
    assert !Run(s, 29, 5, true, 3);
    assert !Run(s, 27, 5, true, 1);
    assert !Sep(s, 24, 5, false);
    assert !Run(s, 23, 4, false, 3);
    assert !Run(s, 21, 4, false, 1);
    assert !Sep(s, 19, 4, false);
    assert !Run(s, 18, 3, false, 3);
    assert !Run(s, 16, 3, false, 1);
    assert !Sep(s, 14, 3, false);
    assert !Run(s, 13, 2, false, 3);
    assert !Run(s, 11, 2, false, 1);
    assert !Sep(s, 9, 2, false);
    assert !Run(s, 8, 1, false, 3);
    assert !Run(s, 6, 1, false, 1);
    assert !Sep(s, 4, 1, false);
    assert !Run(s, 3, 0, false, 3);
    assert !Run(s, 1, 0, false, 1);
  }

  lemma Line548()
    ensures !IsIPv6(("1111:222" + "2:3333:4") + ("444::777" + "7:8888:"))
  {
    var s := ("1111:222" + "2:3333:4") + ("444::777" + "7:8888:");
    assert !Sep(s, 30, 6, true);
    assert !Run(s, 29, 5, true, 3);
    assert !Run(s, 27, 5, true, 1);
    assert !Sep(s, 25, 5, true);
    assert !Run(s, 24, 4, true, 3);
    assert !Run(s, 22, 4, true, 1);
    assert !Sep(s, 19, 4, false);
    assert !Run(s, 18, 3, false, 3);
    assert !Run(s, 16, 3, false, 1);
    assert !Sep(s, 14, 3, false);
    assert !Run(s, 13, 2, false, 3);
    assert !Run(s, 11, 2, false, 1);
    assert !Sep(s, 9, 2, false);
    assert !Run(s, 8, 1, false, 3);
    assert !Run(s, 6, 1, false, 1);
    assert !Sep(s, 4, 1, false);
    assert !Run(s, 3, 0, false, 3);
    assert !Run(s, 1, 0, false, 1);
  }

  lemma Line549()
    ensures !IsIPv6(("1111:222" + "2:3333::") + ("7777:888" + "8:"))
  {
    var s := ("1111:222" + "2:3333::") + ("7777:888" + "8:");
    assert !Sep(s, 25, 5, true);
    assert !Run(s, 24, 4, true, 3);
    assert !Run(s, 22, 4, true, 1);
    assert !Sep(s, 20, 4, true);
    assert !Run(s, 19, 3, true, 3);
    assert !Run(s, 17, 3, true, 1);
    assert !Sep(s, 14, 3, false);
    assert !Run(s, 13, 2, false, 3);
    assert !Run(s, 11, 2, false, 1);
    assert !Sep(s, 9, 2, false);
    assert !Run(s, 8, 1, false, 3);
    assert !Run(s, 6, 1, false, 1);
    assert !Sep(s, 4, 1, false);
    assert !Run(s, 3, 0, false, 3);
    assert !Run(s, 1, 0, false, 1);
  }

  lemma Line550()
    ensures !IsIPv6(("1111:222" + "2::7777:") + "8888:")
  {
    var s := ("1111:222" + "2::7777:") + "8888:";
    assert !Sep(s, 20, 4, true);
    assert !Run(s, 19, 3, true, 3);
    assert !Run(s, 17, 3, true, 1);
    assert !Sep(s, 15, 3, true);
    assert !Run(s, 14, 2, true, 3);
    assert !Run(s, 12, 2, true, 1);
    assert !Sep(s, 9, 2, false);
    assert !Run(s, 8, 1, false, 3);
    assert !Run(s, 6, 1, false, 1);
    assert !Sep(s, 4, 1, false);
    assert !Run(s, 3, 0, false, 3);
    assert !Run(s, 1, 0, false, 1);
  }

  lemma Line551()
    ensures !IsIPv6("1111::77" + "77:8888:")
  {
    var s := "1111::77" + "77:8888:";
    assert !Sep(s, 15, 3, true);
    assert !Run(s, 14, 2, true, 3);
    assert !Run(s, 12, 2, true, 1);
    assert !Sep(s, 10, 2, true);
    assert !Run(s, 9, 1, true, 3);
    assert !Run(s, 7, 1, true, 1);
    assert !Sep(s, 4, 1, false);
    assert !Run(s, 3, 0, false, 3);
    assert !Run(s, 1, 0, false, 1);
  }

  lemma Line552()
    ensures !IsIPv6("::7777:8" + "888:")
  {
    var s := "::7777:8" + "888:";
    assert !Sep(s, 11, 2, true);
    assert !Run(s, 10, 1, true, 3);
    assert !Run(s, 8, 1, true, 1);
    assert !Sep(s, 6, 1, true);
    assert !Run(s, 5, 0, true, 3);
    assert !Run(s, 3, 0, true, 1);
  }

  lemma Line553()
    ensures !IsIPv6((("1111:222" + "2:3333:4") + "444::666") + ("6:7777:8" + "888:"))
  {
    var s := (("1111:222" + "2:3333:4") + "444::666") + ("6:7777:8" + "888:");
    assert !Sep(s, 35, 7, true);
    assert !Run(s, 34, 6, true, 3);
    assert !Run(s, 32, 6, true, 1);
    assert !Sep(s, 30, 6, true);
    assert !Run(s, 29, 5, true, 3);
    assert !Run(s, 27, 5, true, 1);
    assert !Sep(s, 25, 5, true);
    assert !Run(s, 24, 4, true, 3);
    assert !Run(s, 22, 4, true, 1);
    assert !Sep(s, 19, 4, false);
    assert !Run(s, 18, 3, false, 3);
    assert !Run(s, 16, 3, false, 1);
    assert !Sep(s, 14, 3, false);
    assert !Run(s, 13, 2, false, 3);
    assert !Run(s, 11, 2, false, 1);
    assert !Sep(s, 9, 2, false);
    assert !Run(s, 8, 1, false, 3);
    assert !Run(s, 6, 1, false, 1);
    assert !Sep(s, 4, 1, false);
    assert !Run(s, 3, 0, false, 3);
    assert !Run(s, 1, 0, false, 1);
  }

  lemma Line554()
    ensures !IsIPv6(("1111:222" + "2:3333::") + ("6666:777" + "7:8888:"))
  {
    var s := ("1111:222" + "2:3333::") + ("6666:777" + "7:8888:");
    assert !Sep(s, 30, 6, true);
    assert !Run(s, 29, 5, true, 3);
    assert !Run(s, 27, 5, true, 1);
    assert !Sep(s, 25, 5, true);
    assert !Run(s, 24, 4, true, 3);
    assert !Run(s, 22, 4, true, 1);
    assert !Sep(s, 20, 4, true);
    assert !Run(s, 19, 3, true, 3);
    assert !Run(s, 17, 3, true, 1);
    assert !Sep(s, 14, 3, false);
    assert !Run(s, 13, 2, false, 3);
    assert !Run(s, 11, 2, false, 1);
    assert !Sep(s, 9, 2, false);
    assert !Run(s, 8, 1, false, 3);
    assert !Run(s, 6, 1, false, 1);
    assert !Sep(s, 4, 1, false);
    assert !Run(s, 3, 0, false, 3);
    assert !Run(s, 1, 0, false, 1);
  }

  lemma Line555()
    ensures !IsIPv6(("1111:222" + "2::6666:") + ("7777:888" + "8:"))
  {
    var s := ("1111:222" + "2::6666:") + ("7777:888" + "8:");
    assert !Sep(s, 25, 5, true);
    assert !Run(s, 24, 4, true, 3);
    assert !Run(s, 22, 4, true, 1);
    assert !Sep(s, 20, 4, true);
    assert !Run(s, 19, 3, true, 3);
    assert !Run(s, 17, 3, true, 1);
    assert !Sep(s, 15, 3, true);
    assert !Run(s, 14, 2, true, 3);
    assert !Run(s, 12, 2, true, 1);
    assert !Sep(s, 9, 2, false);
    assert !Run(s, 8, 1, false, 3);
    assert !Run(s, 6, 1, false, 1);
    assert !Sep(s, 4, 1, false);
    assert !Run(s, 3, 0, false, 3);
    assert !Run(s, 1, 0, false, 1);
  }

  lemma Line556()
    ensures !IsIPv6(("1111::66" + "66:7777:") + "8888:")
  {
    var s := ("1111::66" + "66:7777:") + "8888:";
    assert !Sep(s, 20, 4, true);
    assert !Run(s, 19, 3, true, 3);
    assert !Run(s, 17, 3, true, 1);
    assert !Sep(s, 15, 3, true);
    assert !Run(s, 14, 2, true, 3);
    assert !Run(s, 12, 2, true, 1);
    assert !Sep(s, 10, 2, true);
    assert !Run(s, 9, 1, true, 3);
    assert !Run(s, 7, 1, true, 1);
    assert !Sep(s, 4, 1, false);
    assert !Run(s, 3, 0, false, 3);
    assert !Run(s, 1, 0, false, 1);
  }

  lemma Line557()
    ensures !IsIPv6(("::6666:7" + "777:8888") + ":")
  {
    var s := ("::6666:7" + "777:8888") + ":";
    assert !Sep(s, 16, 3, true);
    assert !Run(s, 15, 2, true, 3);
    assert !Run(s, 13, 2, true, 1);
    assert !Sep(s, 11, 2, true);
    assert !Run(s, 10, 1, true, 3);
    assert !Run(s, 8, 1, true, 1);
    assert !Sep(s, 6, 1, true);
    assert !Run(s, 5, 0, true, 3);
    assert !Run(s, 3, 0, true, 1);
  }

  lemma Line558()
    ensures !IsIPv6((("1111:222" + "2:3333::") + "5555:666") + ("6:7777:8" + "888:"))
  {
    var s := (("1111:222" + "2:3333::") + "5555:666") + ("6:7777:8" + "888:");
    assert !Sep(s, 35, 7, true);
    assert !Run(s, 34, 6, true, 3);
    assert !Run(s, 32, 6, true, 1);
    assert !Sep(s, 30, 6, true);
    assert !Run(s, 29, 5, true, 3);
    assert !Run(s, 27, 5, true, 1);
    assert !Sep(s, 25, 5, true);
    assert !Run(s, 24, 4, true, 3);
    assert !Run(s, 22, 4, true, 1);
    assert !Sep(s, 20, 4, true);
    assert !Run(s, 19, 3, true, 3);
    assert !Run(s, 17, 3, true, 1);
    assert !Sep(s, 14, 3, false);
    assert !Run(s, 13, 2, false, 3);
    assert !Run(s, 11, 2, false, 1);
    assert !Sep(s, 9, 2, false);
    assert !Run(s, 8, 1, false, 3);
    assert !Run(s, 6, 1, false, 1);
    assert !Sep(s, 4, 1, false);
    assert !Run(s, 3, 0, false, 3);
    assert !Run(s, 1, 0, false, 1);
  }

  lemma Line559()
    ensures !IsIPv6(("1111:222" + "2::5555:") + ("6666:777" + "7:8888:"))
  {
    var s := ("1111:222" + "2::5555:") + ("6666:777" + "7:8888:");
    assert !Sep(s, 30, 6, true);
    assert !Run(s, 29, 5, true, 3);
    assert !Run(s, 27, 5, true, 1);
    assert !Sep(s, 25, 5, true);
    assert !Run(s, 24, 4, true, 3);
    assert !Run(s, 22, 4, true, 1);
    assert !Sep(s, 20, 4, true);
    assert !Run(s, 19, 3, true, 3);
    assert !Run(s, 17, 3, true, 1);
    assert !Sep(s, 15, 3, true);
    assert !Run(s, 14, 2, true, 3);
    assert !Run(s, 12, 2, true, 1);
    assert !Sep(s, 9, 2, false);
    assert !Run(s, 8, 1, false, 3);
    assert !Run(s, 6, 1, false, 1);
    assert !Sep(s, 4, 1, false);
    assert !Run(s, 3, 0, false, 3);
    assert !Run(s, 1, 0, false, 1);
  }

  lemma Line560()
    ensures !IsIPv6(("1111::55" + "55:6666:") + ("7777:888" + "8:"))
  {
    var s := ("1111::55" + "55:6666:") + ("7777:888" + "8:");
    assert !Sep(s, 25, 5, true);
    assert !Run(s, 24, 4, true, 3);
    assert !Run(s, 22, 4, true, 1);
    assert !Sep(s, 20, 4, true);
    assert !Run(s, 19, 3, true, 3);
    assert !Run(s, 17, 3, true, 1);
    assert !Sep(s, 15, 3, true);
    assert !Run(s, 14, 2, true, 3);
    assert !Run(s, 12, 2, true, 1);
    assert !Sep(s, 10, 2, true);
    assert !Run(s, 9, 1, true, 3);
    assert !Run(s, 7, 1, true, 1);
    assert !Sep(s, 4, 1, false);
    assert !Run(s, 3, 0, false, 3);
    assert !Run(s, 1, 0, false, 1);
  }

  lemma Line561()
    ensures !IsIPv6(("::5555:6" + "666:7777") + ":8888:")
  {
    var s := ("::5555:6" + "666:7777") + ":8888:";
    assert !Sep(s, 21, 4, true);
    assert !Run(s, 20, 3, true, 3);
    assert !Run(s, 18, 3, true, 1);
    assert !Sep(s, 16, 3, true);
    assert !Run(s, 15, 2, true, 3);
    assert !Run(s, 13, 2, true, 1);
    assert !Sep(s, 11, 2, true);
    assert !Run(s, 10, 1, true, 3);
    assert !Run(s, 8, 1, true, 1);
    assert !Sep(s, 6, 1, true);
    assert !Run(s, 5, 0, true, 3);
    assert !Run(s, 3, 0, true, 1);
  }

  lemma Line562()
    ensures !IsIPv6((("1111:222" + "2::4444:") + "5555:666") + ("6:7777:8" + "888:"))
  {
    var s := (("1111:222" + "2::4444:") + "5555:666") + ("6:7777:8" + "888:");
    assert !Sep(s, 35, 7, true);
    assert !Run(s, 34, 6, true, 3);
    assert !Run(s, 32, 6, true, 1);
    assert !Sep(s, 30, 6, true);
    assert !Run(s, 29, 5, true, 3);
    assert !Run(s, 27, 5, true, 1);
    assert !Sep(s, 25, 5, true);
    assert !Run(s, 24, 4, true, 3);
    assert !Run(s, 22, 4, true, 1);
    assert !Sep(s, 20, 4, true);
    assert !Run(s, 19, 3, true, 3);
    assert !Run(s, 17, 3, true, 1);
    assert !Sep(s, 15, 3, true);
    assert !Run(s, 14, 2, true, 3);
    assert !Run(s, 12, 2, true, 1);
    assert !Sep(s, 9, 2, false);
    assert !Run(s, 8, 1, false, 3);
    assert !Run(s, 6, 1, false, 1);
    assert !Sep(s, 4, 1, false);
    assert !Run(s, 3, 0, false, 3);
    assert !Run(s, 1, 0, false, 1);
  }

  lemma Line563()
    ensures !IsIPv6(("1111::44" + "44:5555:") + ("6666:777" + "7:8888:"))
  {
    var s := ("1111::44" + "44:5555:") + ("6666:777" + "7:8888:");
    assert !Sep(s, 30, 6, true);
    assert !Run(s, 29, 5, true, 3);
    assert !Run(s, 27, 5, true, 1);
    assert !Sep(s, 25, 5, true);
    assert !Run(s, 24, 4, true, 3);
    assert !Run(s, 22, 4, true, 1);
    assert !Sep(s, 20, 4, true);
    assert !Run(s, 19, 3, true, 3);
    assert !Run(s, 17, 3, true, 1);
    assert !Sep(s, 15, 3, true);
    assert !Run(s, 14, 2, true, 3);
    assert !Run(s, 12, 2, true, 1);
    assert !Sep(s, 10, 2, true);
    assert !Run(s, 9, 1, true, 3);
    assert !Run(s, 7, 1, true, 1);
    assert !Sep(s, 4, 1, false);
    assert !Run(s, 3, 0, false, 3);
    assert !Run(s, 1, 0, false, 1);
  }

  lemma Line564()
    ensures !IsIPv6(("::4444:5" + "555:6666") + (":7777:88" + "88:"))
  {
    var s := ("::4444:5" + "555:6666") + (":7777:88" + "88:");
    assert !Sep(s, 26, 5, true);
    assert !Run(s, 25, 4, true, 3);
    assert !Run(s, 23, 4, true, 1);
    assert !Sep(s, 21, 4, true);
    assert !Run(s, 20, 3, true, 3);
    assert !Run(s, 18, 3, true, 1);
    assert !Sep(s, 16, 3, true);
    assert !Run(s, 15, 2, true, 3);
    assert !Run(s, 13, 2, true, 1);
    assert !Sep(s, 11, 2, true);
    assert !Run(s, 10, 1, true, 3);
    assert !Run(s, 8, 1, true, 1);
    assert !Sep(s, 6, 1, true);
    assert !Run(s, 5, 0, true, 3);
    assert !Run(s, 3, 0, true, 1);
  }

  lemma Line565()
    ensures !IsIPv6((("1111::33" + "33:4444:") + "5555:666") + ("6:7777:8" + "888:"))
  {
    var s := (("1111::33" + "33:4444:") + "5555:666") + ("6:7777:8" + "888:");
    assert !Sep(s, 35, 7, true);
    assert !Run(s, 34, 6, true, 3);
    assert !Run(s, 32, 6, true, 1);
    assert !Sep(s, 30, 6, true);
    assert !Run(s, 29, 5, true, 3);
    assert !Run(s, 27, 5, true, 1);
    assert !Sep(s, 25, 5, true);
    assert !Run(s, 24, 4, true, 3);
    assert !Run(s, 22, 4, true, 1);
    assert !Sep(s, 20, 4, true);
    assert !Run(s, 19, 3, true, 3);
    assert !Run(s, 17, 3, true, 1);
    assert !Sep(s, 15, 3, true);
    assert !Run(s, 14, 2, true, 3);
    assert !Run(s, 12, 2, true, 1);
    assert !Sep(s, 10, 2, true);
    assert !Run(s, 9, 1, true, 3);
    assert !Run(s, 7, 1, true, 1);
    assert !Sep(s, 4, 1, false);
    assert !Run(s, 3, 0, false, 3);
    assert !Run(s, 1, 0, false, 1);
  }

  lemma Line566()
    ensures !IsIPv6(("::3333:4" + "444:5555") + (":6666:77" + "77:8888:"))
  {
    var s := ("::3333:4" + "444:5555") + (":6666:77" + "77:8888:");
    assert !Sep(s, 31, 6, true);
    assert !Run(s, 30, 5, true, 3);
    assert !Run(s, 28, 5, true, 1);
    assert !Sep(s, 26, 5, true);
    assert !Run(s, 25, 4, true, 3);
    assert !Run(s, 23, 4, true, 1);
    assert !Sep(s, 21, 4, true);
    assert !Run(s, 20, 3, true, 3);
    assert !Run(s, 18, 3, true, 1);
    assert !Sep(s, 16, 3, true);
    assert !Run(s, 15, 2, true, 3);
    assert !Run(s, 13, 2, true, 1);
    assert !Sep(s, 11, 2, true);
    assert !Run(s, 10, 1, true, 3);
    assert !Run(s, 8, 1, true, 1);
    assert !Sep(s, 6, 1, true);
    assert !Run(s, 5, 0, true, 3);
    assert !Run(s, 3, 0, true, 1);
  }

  lemma Line567()
    ensures !IsIPv6((("::2222:3" + "333:4444") + ":5555:66") + ("66:7777:" + "8888:"))
  {
    var s := (("::2222:3" + "333:4444") + ":5555:66") + ("66:7777:" + "8888:");
    assert !Sep(s, 36, 7, true);
    assert !Run(s, 35, 6, true, 3);
    assert !Run(s, 33, 6, true, 1);
    assert !Sep(s, 31, 6, true);
    assert !Run(s, 30, 5, true, 3);
    assert !Run(s, 28, 5, true, 1);
    assert !Sep(s, 26, 5, true);
    assert !Run(s, 25, 4, true, 3);
    assert !Run(s, 23, 4, true, 1);
    assert !Sep(s, 21, 4, true);
    assert !Run(s, 20, 3, true, 3);
    assert !Run(s, 18, 3, true, 1);
    assert !Sep(s, 16, 3, true);
    assert !Run(s, 15, 2, true, 3);
    assert !Run(s, 13, 2, true, 1);
    assert !Sep(s, 11, 2, true);
    assert !Run(s, 10, 1, true, 3);
    assert !Run(s, 8, 1, true, 1);
    assert !Sep(s, 6, 1, true);
    assert !Run(s, 5, 0, true, 3);
    assert !Run(s, 3, 0, true, 1);
  }

  lemma Line569()
    ensures IsIPv6("0:a:b:c:" + "d:e:f::")
  {
    var s := "0:a:b:c:" + "d:e:f::";
    assert Sep(s, 13, 7, false);
    assert Sep(s, 11, 6, false);
    assert Sep(s, 9, 5, false);
    assert Sep(s, 7, 4, false);
    assert Sep(s, 5, 3, false);
    assert Sep(s, 3, 2, false);
    assert Sep(s, 1, 1, false);
    assert Run(s, 1, 0, false, 1);
  }

  lemma Line570()
    ensures IsIPv6("::0:a:b:" + "c:d:e:f")
  {
    var s := "::0:a:b:" + "c:d:e:f";
    assert Sep(s, 15, 7, true);
    assert Sep(s, 13, 6, true);
    assert Sep(s, 11, 5, true);
    assert Sep(s, 9, 4, true);
    assert Sep(s, 7, 3, true);
    assert Sep(s, 5, 2, true);
    assert Sep(s, 3, 1, true);
    assert Run(s, 3, 0, true, 1);
  }

  lemma Line571()
    ensures IsIPv6("a:b:c:d:" + "e:f:0::")
  {
    var s := "a:b:c:d:" + "e:f:0::";
    assert Sep(s, 13, 7, false);
    assert Sep(s, 11, 6, false);
    assert Sep(s, 9, 5, false);
    assert Sep(s, 7, 4, false);
    assert Sep(s, 5, 3, false);
    assert Sep(s, 3, 2, false);
    assert Sep(s, 1, 1, false);
    assert Run(s, 1, 0, false, 1);
  }

  lemma Line572()
    ensures !IsIPv6("':10.0.0" + ".1")
  {
    var s := "':10.0.0" + ".1";
  }

}

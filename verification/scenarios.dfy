/**
 * Worked inputs: the binary of "A", "C" and "Hi", AMI and CMI along "A",
 * CMI drawn along "C", and the polarity handed from "C" to the next character.
 */
module Scenarios {
  import opened LineCode
  import opened Base2
  import opened StateFold
  import EncodingUtils
  import BitBox
  import CharacterGroup
  import ReactApp

  lemma Base2Of65()
    ensures ToBase2(65) == "1000001"
  {
    assert ToBase2(4) == "100" by {
      assert ToBase2(1) == "1";
      assert ToBase2(2) == "10";
    }
    assert ToBase2(16) == "10000" by {
      assert ToBase2(8) == "1000";
    }
    assert ToBase2(32) == "100000";
  }

  lemma BinaryOfA()
    ensures EncodingUtils.CharToBinary(65).binary == "01000001"
  {
    Base2Of65();
    assert Zeros(1) == "0";
  }

  /** One '1' among the first seven bits of "A", none in the first. */
  lemma OnesAlongA()
    ensures Ones("01000001"[..1]) == 0 && Ones("01000001"[..7]) == 1
  {
    assert "01000001"[..1] == "0";
    assert "01000001"[..7] == "0100000";
    assert Ones("0100000") == 1 by {
      assert Ones("00000") == 0;
      assert Ones("100000") == 1;
    }
  }

  /** Under AMI from (+1, 0) the two ones of "A" see +1 then -1. */
  lemma AmiAlongA()
    ensures var r := CharacterGroup.ProcessBits("01000001", 0, AMI, 1, 0);
      r[1].state.amiPolarity == 1 && r[7].state.amiPolarity == -1
  {
    CharacterGroup.AmiPolarityAt("01000001", 0, 1, 0, 1);
    CharacterGroup.AmiPolarityAt("01000001", 0, 1, 0, 7);
    OnesAlongA();
  }

  /** Under CMI from level 0 the two ones of "A" see levels 0 then 1. */
  lemma CmiAlongA()
    ensures var r := CharacterGroup.ProcessBits("01000001", 0, CMI, 1, 0);
      r[1].state.cmiState == 0 && r[7].state.cmiState == 1
  {
    CharacterGroup.CmiLevelsAt("01000001", 0, 1, 0, 1);
    CharacterGroup.CmiLevelsAt("01000001", 0, 1, 0, 7);
    OnesAlongA();
  }

  lemma Base2Of67()
    ensures ToBase2(67) == "1000011"
  {
    assert ToBase2(8) == "1000" by {
      assert ToBase2(1) == "1";
      assert ToBase2(2) == "10";
      assert ToBase2(4) == "100";
    }
    assert ToBase2(33) == "100001" by {
      assert ToBase2(16) == "10000";
    }
  }

  lemma BinaryOfC()
    ensures EncodingUtils.CharToBinary(67).binary == "01000011"
  {
    Base2Of67();
    assert Zeros(1) == "0";
  }

  lemma OnesOfC()
    ensures Ones("01000011") == 3 && Ones("01000011"[..7]) == 2
  {
    assert "01000011"[..7] == "0100001";
    assert Ones("0100001") == 2 by {
      assert Ones("1") == 1;
      assert Ones("00001") == 1;
      assert Ones("100001") == 2;
    }
    assert Ones("01000011") == 3 by {
      assert Ones("11") == 2;
      assert Ones("00011") == 2;
      assert Ones("1000011") == 3;
    }
  }

  /**
   * "C" in the component front end under CMI from level 0: its third '1'
   * sees level -1, and its bit box draws it at -1.
   */
  lemma CmiDrawsThirdOneOfCLow()
    ensures EncodingUtils.CharToBinary(67).binary == "01000011"
    ensures var r := CharacterGroup.ProcessBits("01000011", 0, CMI, 1, 0);
      && r[7].bit == '1' && r[7].state.cmiState == -1
      && StartVoltage(BitBox.GeneratePulse(CMI, r[7].bit, r[7].state.amiPolarity, r[7].state.cmiState)) == Some(-1)
  {
    BinaryOfC();
    CmiAlongC();
    assert "01000011"[7] == '1';
  }

  /** Under CMI from level 0 the third '1' of "C" sees level -1. */
  lemma CmiAlongC()
    ensures CharacterGroup.ProcessBits("01000011", 0, CMI, 1, 0)[7].state.cmiState == -1
  {
    CharacterGroup.CmiLevelsAt("01000011", 0, 1, 0, 7);
    OnesOfC();
    assert ThreeCycleLevel(2) == -1;
  }

  /**
   * Under AMI the polarity entering "B" of "CB" is the one left by the eight
   * bits of "C": three ones leave it at -1, where a reset would give +1.
   */
  lemma AmiCarriedIntoSecondCharacter()
    ensures var units := EncodingUtils.TextToBinary([67, 66]);
      var states := EncodingUtils.CalculateEncodingStates(units, AMI);
      states[1] == Fold(Toggle, AMI, states[0], units[0].binary) && states[1].amiPolarity == -1
  {
    var units := EncodingUtils.TextToBinary([67, 66]);
    BinaryOfC();
    OnesOfC();
    FoldAmi(Toggle, 1, 0, "01000011");
  }

  lemma Base2Of72()
    ensures ToBase2(72) == "1001000"
  {
    assert ToBase2(4) == "100" by {
      assert ToBase2(1) == "1";
      assert ToBase2(2) == "10";
    }
    assert ToBase2(18) == "10010" by {
      assert ToBase2(9) == "1001";
    }
    assert ToBase2(36) == "100100";
  }

  lemma BinaryOfH()
    ensures EncodingUtils.CharToBinary(72).binary == "01001000"
  {
    Base2Of72();
    assert Zeros(1) == "0";
  }

  lemma Base2Of105()
    ensures ToBase2(105) == "1101001"
  {
    assert ToBase2(6) == "110" by {
      assert ToBase2(1) == "1";
      assert ToBase2(3) == "11";
    }
    assert ToBase2(26) == "11010" by {
      assert ToBase2(13) == "1101";
    }
    assert ToBase2(52) == "110100";
  }

  lemma BinaryOfI()
    ensures EncodingUtils.CharToBinary(105).binary == "01101001"
  {
    Base2Of105();
    assert Zeros(1) == "0";
  }

  /** "Hi" under NRZ: sixteen bits, and the state handed to each character never moves. */
  lemma HiUnderNrz()
    ensures var units := EncodingUtils.TextToBinary([72, 105]);
      && units[0].binary == "01001000" && units[1].binary == "01101001"
      && ReactApp.TotalBits(units) == 16
      && EncodingUtils.CalculateEncodingStates(units, NRZ) == [EncodingUtils.Start, EncodingUtils.Start]
  {
    BinaryOfH();
    BinaryOfI();
    var units := EncodingUtils.TextToBinary([72, 105]);
    var states := EncodingUtils.CalculateEncodingStates(units, NRZ);
    assert |states| == 2 && states[0] == EncodingUtils.Start && states[1] == EncodingUtils.Start;
  }
}
